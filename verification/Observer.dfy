/** The incident observer's dedup cache: an insertion-ordered dictionary purged from the front only. */
module Observer {
  import opened Jobs

  /** A forwarded incident: its dedup key and when it was forwarded. */
  datatype Forward = Forward(key: string, at: real)

  const EVIDENCE_PREFIX := 80

  /** A job id as it appears in the key. */
  function Shown(jobId: Option<string>): string { if jobId.None? then "None" else jobId.value }

  function Beginning(evidence: string): string {
    if |evidence| <= EVIDENCE_PREFIX then evidence else evidence[..EVIDENCE_PREFIX]
  }

  function DedupKey(typ: string, jobId: Option<string>, evidence: string): string {
    typ + (":" + (Shown(jobId) + (":" + Beginning(evidence))))
  }

  // ----- which incidents share a key

  function First80(evidence: string): string { if |evidence| <= 80 then evidence else evidence[..80] }

  predicate NoColon(s: string) { ':' !in s }

  lemma PrependSame(a: string, x: string, y: string)
    ensures a + x == a + y <==> x == y
  {
    assert (a + x)[|a|..] == x && (a + y)[|a|..] == y;
  }

  function ColonAt(s: string): nat {
    if s == "" || s[0] == ':' then 0 else 1 + ColonAt(s[1..])
  }

  lemma {:induction false} FirstColon(a: string, x: string)
    requires NoColon(a)
    ensures ColonAt(a + (":" + x)) == |a|
  {
    if a == "" {
      assert (a + (":" + x))[0] == ':';
    } else {
      FirstColon(a[1..], x);
      assert (a + (":" + x))[1..] == a[1..] + (":" + x);
      assert a[0] in a;
    }
  }

  lemma ColonSplits(a: string, x: string, b: string, y: string)
    requires NoColon(a) && NoColon(b)
    ensures a + (":" + x) == b + (":" + y) <==> a == b && x == y
  {
    FirstColon(a, x);
    FirstColon(b, y);
    if a + (":" + x) == b + (":" + y) {
      assert a == (a + (":" + x))[..|a|] && b == (b + (":" + y))[..|b|];
      PrependSame(a, ":" + x, ":" + y);
      PrependSame(":", x, y);
    }
  }

  /** Two incidents of one type and job share a key if and only if the first 80 characters of their evidence agree. */
  lemma SameJobKeyIff(typ: string, jobId: Option<string>, a: string, b: string)
    ensures DedupKey(typ, jobId, a) == DedupKey(typ, jobId, b) <==> First80(a) == First80(b)
  {
    var x, y := Beginning(a), Beginning(b);
    PrependSame(typ, ":" + (Shown(jobId) + (":" + x)), ":" + (Shown(jobId) + (":" + y)));
    PrependSame(":", Shown(jobId) + (":" + x), Shown(jobId) + (":" + y));
    PrependSame(Shown(jobId), ":" + x, ":" + y);
    PrependSame(":", x, y);
  }

  /** Without colons in types and ids, incidents share a key if and only if type, shown id and the first 80 characters
      of the evidence agree. */
  lemma KeysEqualIff(typ: string, jobId: Option<string>, a: string, typ': string, jobId': Option<string>, b: string)
    requires NoColon(typ) && NoColon(typ') && NoColon(Shown(jobId)) && NoColon(Shown(jobId'))
    ensures DedupKey(typ, jobId, a) == DedupKey(typ', jobId', b) <==>
            typ == typ' && Shown(jobId) == Shown(jobId') && First80(a) == First80(b)
  {
    var x, y := Beginning(a), Beginning(b);
    ColonSplits(typ, Shown(jobId) + (":" + x), typ', Shown(jobId') + (":" + y));
    ColonSplits(Shown(jobId), x, Shown(jobId'), y);
  }

  /** With colons, incidents of different types can share a key. */
  lemma KeysCollide(evidence: string)
    ensures DedupKey("A:B", Some("C"), evidence) == DedupKey("A", Some("B:C"), evidence)
  {
    var start := Beginning(evidence);
    assert "A:B" + (":" + ("C" + (":" + start))) == "A" + (":" + ("B:C" + (":" + start)));
  }

  // ----- the cache

  predicate Stale(f: Forward, now: real, ttl: real) { now - f.at > ttl }

  predicate Knows(seen: seq<Forward>, key: string) {
    exists i :: 0 <= i < |seen| && seen[i].key == key
  }

  /** The front-only purge. */
  function Purge(seen: seq<Forward>, now: real, ttl: real): seq<Forward> {
    if seen == [] || !Stale(seen[0], now, ttl) then seen else Purge(seen[1..], now, ttl)
  }

  /** The key was forwarded within the last `ttl` seconds. */
  ghost predicate Repeats(history: seq<Forward>, key: string, now: real, ttl: real) {
    exists i :: 0 <= i < |history| && history[i].key == key && !Stale(history[i], now, ttl)
  }

  ghost predicate InTimeOrder(history: seq<Forward>) {
    forall i, k :: 0 <= i < k < |history| ==> history[i].at <= history[k].at
  }

  /** Two forwards of one key lie more than `ttl` apart. */
  ghost predicate FarApart(history: seq<Forward>, ttl: real) {
    forall i, k :: 0 <= i < k < |history| && history[i].key == history[k].key ==> history[k].at - history[i].at > ttl
  }

  /** Whatever the times, the cache is the end of the history. */
  ghost predicate IsTail(seen: seq<Forward>, history: seq<Forward>) {
    |seen| <= |history| && seen == history[|history| - |seen|..]
  }

  /** The cache is a tail of the history, and what it has dropped was stale at the last call. */
  ghost predicate Caches(seen: seq<Forward>, history: seq<Forward>, last: real, ttl: real) {
    && IsTail(seen, history)
    && InTimeOrder(history) && FarApart(history, ttl)
    && (forall f :: f in history ==> f.at <= last)
    && (forall i :: 0 <= i < |history| - |seen| ==> Stale(history[i], last, ttl))
  }

  /** Purging from the front is complete: no stale entry survives and no fresh one is dropped. */
  lemma {:induction false} PurgeIsComplete(seen: seq<Forward>, history: seq<Forward>, last: real, now: real, ttl: real)
    requires Caches(seen, history, last, ttl) && last <= now
    ensures Caches(Purge(seen, now, ttl), history, now, ttl)
    ensures forall f :: f in Purge(seen, now, ttl) ==> !Stale(f, now, ttl)
    decreases |seen|
  {
    if seen != [] && Stale(seen[0], now, ttl) {
      assert seen[0] == history[|history| - |seen|];
      assert Caches(seen[1..], history, now, ttl);
      PurgeIsComplete(seen[1..], history, now, now, ttl);
    } else {
      forall f | f in seen
        ensures !Stale(f, now, ttl)
      {
        var i :| 0 <= i < |seen| && seen[i] == f;
        assert seen[0].at <= f.at;
      }
    }
  }

  lemma RepeatsSplits(dropped: seq<Forward>, kept: seq<Forward>, key: string, now: real, ttl: real)
    ensures Repeats(dropped + kept, key, now, ttl) <==> Repeats(dropped, key, now, ttl) || Repeats(kept, key, now, ttl)
  {
    var all := dropped + kept;
    if Repeats(all, key, now, ttl) {
      var i :| 0 <= i < |all| && all[i].key == key && !Stale(all[i], now, ttl);
      assert if i < |dropped| then dropped[i] == all[i] else kept[i - |dropped|] == all[i];
    }
    assert forall i :: 0 <= i < |dropped| ==> all[i] == dropped[i];
    assert forall i :: 0 <= i < |kept| ==> all[|dropped| + i] == kept[i];
  }

  /** With time running forward the cache knows a key exactly when the whole history says it was forwarded in time. */
  lemma CacheMatchesHistory(seen: seq<Forward>, history: seq<Forward>, last: real, now: real, key: string, ttl: real)
    requires Caches(seen, history, last, ttl) && last <= now
    ensures Knows(Purge(seen, now, ttl), key) <==> Repeats(history, key, now, ttl)
  {
    PurgeIsComplete(seen, history, last, now, ttl);
    var kept := Purge(seen, now, ttl);
    var dropped := history[..|history| - |kept|];
    assert history == dropped + kept;
    RepeatsSplits(dropped, kept, key, now, ttl);
    assert !Repeats(dropped, key, now, ttl);
    assert forall i :: 0 <= i < |kept| ==> kept[i] in kept;
  }

  lemma ForwardingKeepsCache(seen: seq<Forward>, history: seq<Forward>, now: real, key: string, ttl: real)
    requires Caches(seen, history, now, ttl) && !Repeats(history, key, now, ttl)
    ensures Caches(seen + [Forward(key, now)], history + [Forward(key, now)], now, ttl)
  {
  }

  // ----- times in any order

  ghost predicate OncePerKey(seen: seq<Forward>) {
    forall i, k :: 0 <= i < k < |seen| ==> seen[i].key != seen[k].key
  }

  /** The purge stops at the first fresh entry; what comes behind it stays, stale or not. */
  lemma {:induction false} PurgeStops(seen: seq<Forward>, history: seq<Forward>, now: real, ttl: real)
    requires IsTail(seen, history) && OncePerKey(seen)
    ensures var kept := Purge(seen, now, ttl);
            && IsTail(kept, history) && OncePerKey(kept) && |kept| <= |seen|
            && (forall i :: |history| - |seen| <= i < |history| - |kept| ==> Stale(history[i], now, ttl))
  {
    if seen == [] || !Stale(seen[0], now, ttl) {
    } else {
      assert seen[0] == history[|history| - |seen|];
      PurgeStops(seen[1..], history, now, ttl);
    }
  }

  /** An entry of the key stands behind a fresh one, or is fresh itself. */
  ghost predicate Shielded(seen: seq<Forward>, key: string, now: real, ttl: real) {
    exists i, k :: 0 <= i <= k < |seen| && seen[k].key == key && !Stale(seen[i], now, ttl)
  }

  /** What survives a purge is what a fresh entry shields. */
  lemma {:induction false} SurvivesIff(seen: seq<Forward>, key: string, now: real, ttl: real)
    ensures Knows(Purge(seen, now, ttl), key) <==> Shielded(seen, key, now, ttl)
  {
    if seen == [] {
    } else if !Stale(seen[0], now, ttl) {
      if Knows(seen, key) {
        var k :| 0 <= k < |seen| && seen[k].key == key;
        assert 0 <= 0 <= k < |seen| && !Stale(seen[0], now, ttl);
      }
    } else {
      var rest := seen[1..];
      SurvivesIff(rest, key, now, ttl);
      if Shielded(rest, key, now, ttl) {
        var i, k :| 0 <= i <= k < |rest| && rest[k].key == key && !Stale(rest[i], now, ttl);
        assert seen[k + 1] == rest[k] && seen[i + 1] == rest[i];
      }
      if Shielded(seen, key, now, ttl) {
        var i, k :| 0 <= i <= k < |seen| && seen[k].key == key && !Stale(seen[i], now, ttl);
        assert rest[k - 1] == seen[k] && rest[i - 1] == seen[i];
      }
    }
  }

  /** From `t` on the next call answers as the history would, whatever it asks and whenever it comes. */
  ghost predicate RightFrom(seen: seq<Forward>, history: seq<Forward>, t: real, ttl: real) {
    forall key, now :: t <= now ==> (Knows(Purge(seen, now, ttl), key) <==> Repeats(history, key, now, ttl))
  }

  /** Each forward that is fresh at `t` has an entry of its key in the cache, shielded at least as long. */
  ghost predicate Remembers(seen: seq<Forward>, history: seq<Forward>, t: real, ttl: real) {
    forall n :: 0 <= n < |history| && !Stale(history[n], t, ttl) ==> ShieldedUntil(seen, history[n])
  }

  ghost predicate ShieldedUntil(seen: seq<Forward>, f: Forward) {
    exists i, k :: 0 <= i <= k < |seen| && seen[k].key == f.key && f.at <= seen[i].at
  }

  /** No entry of the cache is shielded, by one that is fresh at `t`, for longer than its key was forwarded. */
  ghost predicate Releases(seen: seq<Forward>, history: seq<Forward>, t: real, ttl: real) {
    forall i, k :: 0 <= i <= k < |seen| && !Stale(seen[i], t, ttl) ==>
      ForwardedSince(history, seen[k].key, seen[i].at)
  }

  ghost predicate ForwardedSince(history: seq<Forward>, key: string, at: real) {
    exists n :: 0 <= n < |history| && history[n].key == key && at <= history[n].at
  }

  lemma RightRemembers(seen: seq<Forward>, history: seq<Forward>, t: real, ttl: real)
    requires RightFrom(seen, history, t, ttl)
    ensures Remembers(seen, history, t, ttl)
  {
    forall n | 0 <= n < |history| && !Stale(history[n], t, ttl)
      ensures ShieldedUntil(seen, history[n])
    {
      var f := history[n];
      var now := f.at + ttl;
      SurvivesIff(seen, f.key, now, ttl);
      assert Repeats(history, f.key, now, ttl);
      var i, k :| 0 <= i <= k < |seen| && seen[k].key == f.key && !Stale(seen[i], now, ttl);
      assert f.at <= seen[i].at;
    }
  }

  lemma RightReleases(seen: seq<Forward>, history: seq<Forward>, t: real, ttl: real)
    requires RightFrom(seen, history, t, ttl)
    ensures Releases(seen, history, t, ttl)
  {
    forall i, k | 0 <= i <= k < |seen| && !Stale(seen[i], t, ttl)
      ensures ForwardedSince(history, seen[k].key, seen[i].at)
    {
      var key := seen[k].key;
      var now := seen[i].at + ttl;
      SurvivesIff(seen, key, now, ttl);
      assert Shielded(seen, key, now, ttl);
      var n :| 0 <= n < |history| && history[n].key == key && !Stale(history[n], now, ttl);
      assert seen[i].at <= history[n].at;
    }
  }

  lemma AnswersRight(seen: seq<Forward>, history: seq<Forward>, t: real, key: string, now: real, ttl: real)
    requires Remembers(seen, history, t, ttl) && Releases(seen, history, t, ttl) && t <= now
    ensures Knows(Purge(seen, now, ttl), key) <==> Repeats(history, key, now, ttl)
  {
    SurvivesIff(seen, key, now, ttl);
    if Repeats(history, key, now, ttl) {
      var n :| 0 <= n < |history| && history[n].key == key && !Stale(history[n], now, ttl);
      assert ShieldedUntil(seen, history[n]);
      var i, k :| 0 <= i <= k < |seen| && seen[k].key == history[n].key && history[n].at <= seen[i].at;
      assert !Stale(seen[i], now, ttl);
    }
    if Shielded(seen, key, now, ttl) {
      var i, k :| 0 <= i <= k < |seen| && seen[k].key == key && !Stale(seen[i], now, ttl);
      assert ForwardedSince(history, seen[k].key, seen[i].at);
      var n :| 0 <= n < |history| && history[n].key == key && seen[i].at <= history[n].at;
      assert !Stale(history[n], now, ttl);
    }
  }

  /** For any cache and any history: the answers are right from `t` on if and only if no forward that is still fresh
      lacks an entry that is shielded as long, and no entry is shielded longer than its key was forwarded. */
  lemma RightFromIff(seen: seq<Forward>, history: seq<Forward>, t: real, ttl: real)
    ensures RightFrom(seen, history, t, ttl) <==>
            Remembers(seen, history, t, ttl) && Releases(seen, history, t, ttl)
  {
    if RightFrom(seen, history, t, ttl) {
      RightRemembers(seen, history, t, ttl);
      RightReleases(seen, history, t, ttl);
    }
    if Remembers(seen, history, t, ttl) && Releases(seen, history, t, ttl) {
      forall key, now | t <= now
        ensures Knows(Purge(seen, now, ttl), key) <==> Repeats(history, key, now, ttl)
      {
        AnswersRight(seen, history, t, key, now, ttl);
      }
    }
  }

  /** An entry that is fresh at `t` stands in front of an older one. */
  ghost predicate LiveInversion(seen: seq<Forward>, t: real, ttl: real) {
    exists i, k :: 0 <= i < k < |seen| && seen[k].at < seen[i].at && !Stale(seen[i], t, ttl)
  }

  /** What the cache has dropped is stale at `t`. */
  ghost predicate DroppedStale(seen: seq<Forward>, history: seq<Forward>, t: real, ttl: real) {
    forall i :: 0 <= i < |history| - |seen| ==> Stale(history[i], t, ttl)
  }

  lemma FreshIsRemembered(seen: seq<Forward>, history: seq<Forward>, t: real, ttl: real)
    requires IsTail(seen, history) && DroppedStale(seen, history, t, ttl)
    ensures Remembers(seen, history, t, ttl)
  {
    var cut := |history| - |seen|;
    forall n | 0 <= n < |history| && !Stale(history[n], t, ttl)
      ensures ShieldedUntil(seen, history[n])
    {
      assert cut <= n && seen[n - cut] == history[n];
    }
  }

  /** The only forward of a cached key that can be as late as a fresh entry is the cached one. */
  lemma ReleasedInOrder(seen: seq<Forward>, history: seq<Forward>, t: real, ttl: real, i: nat, k: nat)
    requires IsTail(seen, history) && OncePerKey(seen) && DroppedStale(seen, history, t, ttl)
    requires i < |seen| && k < |seen| && !Stale(seen[i], t, ttl)
    ensures ForwardedSince(history, seen[k].key, seen[i].at) <==> seen[i].at <= seen[k].at
  {
    var cut := |history| - |seen|;
    assert history[cut + k] == seen[k];
    if ForwardedSince(history, seen[k].key, seen[i].at) {
      var n :| 0 <= n < |history| && history[n].key == seen[k].key && seen[i].at <= history[n].at;
      assert !Stale(history[n], t, ttl);
      assert cut <= n && seen[n - cut] == history[n];
    }
  }

  lemma ReleasesIff(seen: seq<Forward>, history: seq<Forward>, t: real, ttl: real)
    requires IsTail(seen, history) && OncePerKey(seen) && DroppedStale(seen, history, t, ttl)
    ensures Releases(seen, history, t, ttl) <==> !LiveInversion(seen, t, ttl)
  {
    forall i: nat, k: nat | i <= k < |seen| && !Stale(seen[i], t, ttl)
      ensures ForwardedSince(history, seen[k].key, seen[i].at) <==> seen[i].at <= seen[k].at
    {
      ReleasedInOrder(seen, history, t, ttl, i, k);
    }
  }

  /** On the cached times alone: when nothing was dropped that is fresh at `t`, the answers are right from `t` on if
      and only if no entry that is fresh at `t` stands in front of an older one. */
  lemma AnswerIsRightIff(seen: seq<Forward>, history: seq<Forward>, t: real, ttl: real)
    requires IsTail(seen, history) && OncePerKey(seen) && DroppedStale(seen, history, t, ttl)
    ensures RightFrom(seen, history, t, ttl) <==> !LiveInversion(seen, t, ttl)
  {
    RightFromIff(seen, history, t, ttl);
    FreshIsRemembered(seen, history, t, ttl);
    ReleasesIff(seen, history, t, ttl);
  }

  /** The cache and the history after a call. */
  function Remember(entries: seq<Forward>, duplicate: bool, key: string, now: real): seq<Forward> {
    if duplicate then entries else entries + [Forward(key, now)]
  }

  function Later(a: real, b: real): real { if a <= b then b else a }

  /** What an agent's cache has to do with its history, whatever its clock did; `steady` if it never stepped back. */
  ghost predicate Consistent(seen: seq<Forward>, history: seq<Forward>, latest: real, steady: bool, ttl: real) {
    && IsTail(seen, history) && OncePerKey(seen) && DroppedStale(seen, history, latest, ttl)
    && (steady ==> Caches(seen, history, latest, ttl))
  }

  lemma ForwardingKeepsTail(seen: seq<Forward>, history: seq<Forward>, f: Forward)
    requires IsTail(seen, history) && OncePerKey(seen) && !Knows(seen, f.key)
    ensures IsTail(seen + [f], history + [f]) && OncePerKey(seen + [f])
  {
    assert seen + [f] == (history + [f])[|history| - |seen|..];
  }

  lemma SteadyCall(seen: seq<Forward>, history: seq<Forward>, last: real, now: real, key: string, ttl: real)
    requires Caches(seen, history, last, ttl) && last <= now
    ensures var kept := Purge(seen, now, ttl);
            var duplicate := Knows(kept, key);
            && duplicate == Repeats(history, key, now, ttl)
            && Caches(Remember(kept, duplicate, key, now), Remember(history, duplicate, key, now), now, ttl)
  {
    CacheMatchesHistory(seen, history, last, now, key, ttl);
    PurgeIsComplete(seen, history, last, now, ttl);
    if !Knows(Purge(seen, now, ttl), key) {
      ForwardingKeepsCache(Purge(seen, now, ttl), history, now, key, ttl);
    }
  }

  lemma CallKeepsConsistent(seen: seq<Forward>, history: seq<Forward>, latest: real, steady: bool, now: real,
                            key: string, ttl: real)
    requires Consistent(seen, history, latest, steady, ttl)
    ensures var kept := Purge(seen, now, ttl);
            var duplicate := Knows(kept, key);
            && Consistent(Remember(kept, duplicate, key, now), Remember(history, duplicate, key, now),
                          Later(latest, now), steady && latest <= now, ttl)
            && (steady && latest <= now ==> duplicate == Repeats(history, key, now, ttl))
  {
    var kept := Purge(seen, now, ttl);
    PurgeStops(seen, history, now, ttl);
    assert DroppedStale(kept, history, Later(latest, now), ttl);
    if !Knows(kept, key) {
      ForwardingKeepsTail(kept, history, Forward(key, now));
    }
    if steady && latest <= now {
      SteadyCall(seen, history, latest, now, key, ttl);
    }
  }

  // ----- incidents instead of keys

  /** A forwarded incident, as far as dedup looks at it. */
  datatype Sighting = Sighting(typ: string, jobId: Option<string>, evidence: string, at: real)

  /** `forwarded` holds the keys of the incidents in `log`. */
  ghost predicate Keyed(log: seq<Sighting>, forwarded: seq<Forward>) {
    && |log| == |forwarded|
    && forall i :: 0 <= i < |log| ==>
         forwarded[i] == Forward(DedupKey(log[i].typ, log[i].jobId, log[i].evidence), log[i].at)
  }

  /** An incident of this type and job, with the same first 80 characters of evidence, was forwarded in the last
      `ttl` seconds. */
  ghost predicate SeenBefore(log: seq<Sighting>, typ: string, jobId: Option<string>, evidence: string, now: real,
                             ttl: real) {
    exists i :: 0 <= i < |log| && log[i].typ == typ && Shown(log[i].jobId) == Shown(jobId)
                && First80(log[i].evidence) == First80(evidence) && now - log[i].at <= ttl
  }

  ghost predicate Colonless(log: seq<Sighting>) {
    forall i :: 0 <= i < |log| ==> NoColon(log[i].typ) && NoColon(Shown(log[i].jobId))
  }

  /** Repeating a key is repeating an incident: always if there is one, and only then if no colon gets in the way. */
  lemma SeenIsRepeated(log: seq<Sighting>, forwarded: seq<Forward>, typ: string, jobId: Option<string>,
                       evidence: string, now: real, ttl: real)
    requires Keyed(log, forwarded)
    ensures SeenBefore(log, typ, jobId, evidence, now, ttl) ==>
              Repeats(forwarded, DedupKey(typ, jobId, evidence), now, ttl)
    ensures Colonless(log) && NoColon(typ) && NoColon(Shown(jobId)) &&
            Repeats(forwarded, DedupKey(typ, jobId, evidence), now, ttl) ==>
              SeenBefore(log, typ, jobId, evidence, now, ttl)
  {
    if SeenBefore(log, typ, jobId, evidence, now, ttl) {
      var i :| 0 <= i < |log| && log[i].typ == typ && Shown(log[i].jobId) == Shown(jobId)
               && First80(log[i].evidence) == First80(evidence) && now - log[i].at <= ttl;
      SameJobKeyIff(typ, jobId, log[i].evidence, evidence);
      assert forwarded[i].key == DedupKey(typ, jobId, evidence) && !Stale(forwarded[i], now, ttl);
    }
    if Colonless(log) && NoColon(typ) && NoColon(Shown(jobId))
       && Repeats(forwarded, DedupKey(typ, jobId, evidence), now, ttl) {
      var i :| 0 <= i < |forwarded| && forwarded[i].key == DedupKey(typ, jobId, evidence)
               && !Stale(forwarded[i], now, ttl);
      KeysEqualIff(log[i].typ, log[i].jobId, log[i].evidence, typ, jobId, evidence);
    }
  }

  function Logged(log: seq<Sighting>, duplicate: bool, s: Sighting): seq<Sighting> {
    if duplicate then log else log + [s]
  }

  lemma LogKeepsKeyed(log: seq<Sighting>, forwarded: seq<Forward>, duplicate: bool, s: Sighting)
    requires Keyed(log, forwarded)
    ensures Keyed(Logged(log, duplicate, s),
                  Remember(forwarded, duplicate, DedupKey(s.typ, s.jobId, s.evidence), s.at))
  {
  }

  /** The answer about an incident, right in both directions as far as colons permit. */
  ghost predicate RightAnswer(log: seq<Sighting>, s: Sighting, ttl: real, duplicate: bool) {
    && (SeenBefore(log, s.typ, s.jobId, s.evidence, s.at, ttl) ==> duplicate)
    && (duplicate && Colonless(log) && NoColon(s.typ) && NoColon(Shown(s.jobId)) ==>
          SeenBefore(log, s.typ, s.jobId, s.evidence, s.at, ttl))
  }

  lemma RepeatsIsRight(log: seq<Sighting>, forwarded: seq<Forward>, s: Sighting, ttl: real)
    requires Keyed(log, forwarded)
    ensures RightAnswer(log, s, ttl, Repeats(forwarded, DedupKey(s.typ, s.jobId, s.evidence), s.at, ttl))
  {
    SeenIsRepeated(log, forwarded, s.typ, s.jobId, s.evidence, s.at, ttl);
  }

  class ObserverAgent {
    const ttl: real
    var seen: seq<Forward>
    ghost var forwarded: seq<Forward>  // every incident ever passed on
    ghost var log: seq<Sighting>       // the same, as incidents
    ghost var latest: real             // the latest instant of any call
    ghost var steady: bool             // no call came earlier than one before it

    ghost predicate Valid()
      reads this
    {
      Consistent(seen, forwarded, latest, steady, ttl) && Keyed(log, forwarded)
    }

    constructor (ttl: real, ghost start: real)
      ensures Valid() && this.ttl == ttl && seen == forwarded == [] && log == []
      ensures latest == start && steady
    {
      this.ttl, seen := ttl, [];
      forwarded, log, latest, steady := [], [], start, true;
    }

    /** Duplicates are dropped, everything else is forwarded and remembered. As long as the clock has not stepped back
        a duplicate is exactly a key that was forwarded within the last `ttl` seconds; which means, if no type or id
        has a colon, an incident of the same type and job with the same first 80 characters of evidence. */
    method IsDuplicate(typ: string, jobId: Option<string>, evidence: string, now: real) returns (duplicate: bool)
      requires Valid()
      modifies this
      ensures Valid() && latest == Later(old(latest), now) && steady == (old(steady) && old(latest) <= now)
      ensures var key := DedupKey(typ, jobId, evidence);
              && (steady ==> duplicate == Repeats(old(forwarded), key, now, ttl))
              && (steady ==> RightAnswer(old(log), Sighting(typ, jobId, evidence, now), ttl, duplicate))
              && log == Logged(old(log), duplicate, Sighting(typ, jobId, evidence, now))
              && duplicate == Knows(Purge(old(seen), now, ttl), key)
              && forwarded == Remember(old(forwarded), duplicate, key, now)
              && seen == Remember(Purge(old(seen), now, ttl), duplicate, key, now)
    {
      var key := DedupKey(typ, jobId, evidence);
      CallKeepsConsistent(seen, forwarded, latest, steady, now, key, ttl);
      ghost var sighting := Sighting(typ, jobId, evidence, now);
      RepeatsIsRight(log, forwarded, sighting, ttl);
      PurgeStale(now);
      duplicate := Knows(seen, key);
      if !duplicate {
        seen := seen + [Forward(key, now)];
      }
      LogKeepsKeyed(log, forwarded, duplicate, sighting);
      forwarded, log := Remember(forwarded, duplicate, key, now), Logged(log, duplicate, sighting);
      steady := steady && latest <= now;
      latest := Later(latest, now);
    }

    /** Whatever its clock has done so far: once it is back at the latest instant of a call, an agent answers rightly
        from then on if and only if its cache holds no fresh entry in front of an older one. */
    lemma RightAgainIff()
      requires Valid()
      ensures RightFrom(seen, forwarded, latest, ttl) <==> !LiveInversion(seen, latest, ttl)
    {
      AnswerIsRightIff(seen, forwarded, latest, ttl);
    }

    method PurgeStale(now: real)
      modifies this`seen
      ensures seen == Purge(old(seen), now, ttl)
    {
      while seen != []
        invariant Purge(seen, now, ttl) == Purge(old(seen), now, ttl)
        decreases |seen|
      {
        if Stale(seen[0], now, ttl) {
          seen := seen[1..];
        } else {
          break;
        }
      }
    }
  }

  // ----- what a step back of the clock can do

  /** The key of an incident of the type, without job and evidence. */
  function KeyOf(typ: string): string { DedupKey(typ, None, "") }

  lemma HiddenBehind(a: Forward, b: Forward)
    requires a.key != b.key && a.at == 1000.0 && b.at == 0.0
    ensures Purge([a], 0.0, 300.0) == [a] && Purge([a, b], 1100.0, 300.0) == [a, b]
    ensures !Knows([a], b.key) && Knows([a, b], b.key) && !Repeats([a, b], b.key, 1100.0, 300.0)
  {
    assert [a, b][1].key == b.key;
  }

  lemma DroppedTooEarly(a: Forward, b: Forward)
    requires a.key != b.key && a.at == 0.0 && b.at == 1000.0
    ensures Purge([a], 1000.0, 300.0) == [] && Purge([b], 100.0, 300.0) == [b]
    ensures !Knows([], b.key) && !Knows([b], a.key) && Repeats([a, b], a.key, 100.0, 300.0)
  {
    assert [a, b][0].key == a.key;
  }

  lemma TypesDiffer(first: string, second: string)
    requires NoColon(first) && NoColon(second) && first != second
    ensures KeyOf(first) != KeyOf(second)
  {
    KeysEqualIff(first, None, "", second, None, "");
  }

  method OneForwarded(typ: string, at: real) returns (agent: ObserverAgent)
    ensures fresh(agent) && agent.Valid() && agent.ttl == 300.0
    ensures agent.seen == agent.forwarded == [Forward(KeyOf(typ), at)]
  {
    agent := new ObserverAgent(300.0, at);
    var _ := agent.IsDuplicate(typ, None, "", at);
  }

  method AheadThenBack(first: string, second: string) returns (agent: ObserverAgent)
    requires KeyOf(first) != KeyOf(second)
    ensures fresh(agent) && agent.Valid() && agent.ttl == 300.0
    ensures agent.seen == agent.forwarded == [Forward(KeyOf(first), 1000.0), Forward(KeyOf(second), 0.0)]
  {
    HiddenBehind(Forward(KeyOf(first), 1000.0), Forward(KeyOf(second), 0.0));
    agent := OneForwarded(first, 1000.0);
    var _ := agent.IsDuplicate(second, None, "", 0.0);
  }

  /** After a step back by 1000 s an incident that was forwarded 1100 s ago is suppressed, because the purge stops at a
      younger entry in front of it. */
  method StepBackBreaksDedup(first: string, second: string) returns (agent: ObserverAgent, duplicate: bool)
    requires NoColon(first) && NoColon(second) && first != second
    ensures agent.Valid() && agent.ttl == 300.0 && duplicate
    ensures agent.forwarded == [Forward(KeyOf(first), 1000.0), Forward(KeyOf(second), 0.0)]
    ensures !Repeats(agent.forwarded, KeyOf(second), 1100.0, agent.ttl)
  {
    TypesDiffer(first, second);
    HiddenBehind(Forward(KeyOf(first), 1000.0), Forward(KeyOf(second), 0.0));
    agent := AheadThenBack(first, second);
    duplicate := agent.IsDuplicate(second, None, "", 1100.0);
  }

  method DroppedWhileAhead(first: string, second: string) returns (agent: ObserverAgent)
    requires KeyOf(first) != KeyOf(second)
    ensures fresh(agent) && agent.Valid() && agent.ttl == 300.0
    ensures agent.seen == [Forward(KeyOf(second), 1000.0)]
    ensures agent.forwarded == [Forward(KeyOf(first), 0.0), Forward(KeyOf(second), 1000.0)]
  {
    DroppedTooEarly(Forward(KeyOf(first), 0.0), Forward(KeyOf(second), 1000.0));
    agent := OneForwarded(first, 0.0);
    var _ := agent.IsDuplicate(second, None, "", 1000.0);
  }

  /** After a step back by 900 s an incident that was forwarded 100 s ago is forwarded again, because it was dropped
      while the clock was ahead. */
  method StepBackForgets(first: string, second: string) returns (agent: ObserverAgent, duplicate: bool)
    requires NoColon(first) && NoColon(second) && first != second
    ensures agent.Valid() && agent.ttl == 300.0 && !duplicate
    ensures agent.forwarded ==
            [Forward(KeyOf(first), 0.0), Forward(KeyOf(second), 1000.0)] + [Forward(KeyOf(first), 100.0)]
    ensures Repeats([Forward(KeyOf(first), 0.0), Forward(KeyOf(second), 1000.0)], KeyOf(first), 100.0, agent.ttl)
  {
    TypesDiffer(first, second);
    DroppedTooEarly(Forward(KeyOf(first), 0.0), Forward(KeyOf(second), 1000.0));
    agent := DroppedWhileAhead(first, second);
    duplicate := agent.IsDuplicate(first, None, "", 100.0);
  }
}
