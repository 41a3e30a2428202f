/** The sliding-window rate limiter: one sorted set of admission timestamps per job type. */
module RateLimiter {
  import opened FiniteSets
  import opened Jobs

  /** The sorted set of one key (score and member are the same timestamp) and the instant its TTL runs out. */
  datatype Window = Window(stamps: set<int>, expireAt: int)

  datatype Verdict = Verdict(admitted: bool, window: Option<Window>)

  /** Redis may have evicted the key by `now`. */
  predicate Evictable(window: Option<Window>, now: int) {
    window.Some? && window.value.expireAt <= now
  }

  /** ZREMRANGEBYSCORE key 0 (now - window) */
  function Trim(stamps: set<int>, now: int): set<int> {
    set t | t in stamps && !(0 <= t <= now - RATE_WINDOW)
  }

  /** One call of the script at `now`; `evicted` says whether the key had already expired away. */
  function Allow(window: Option<Window>, now: int, limit: int, evicted: bool): Verdict {
    var stored := if window.None? || evicted then {} else window.value.stamps;
    var kept := Trim(stored, now);
    if |kept| >= limit then
      Verdict(false, if kept == {} then None else Some(Window(kept, window.value.expireAt)))
    else
      Verdict(true, Some(Window(kept + {now}, now + RATE_WINDOW)))
  }

  /** What one call leaves in the sorted set: the stored instants of the last 1000 ms, and its own if it is admitted.
      Only an admission starts the key's 1000 ms anew; an empty set is no key. */
  lemma ScriptEffect(window: Option<Window>, now: int, limit: int, evicted: bool, t: int)
    requires window.Some? ==> forall u :: u in window.value.stamps ==> 0 <= u
    ensures var v := Allow(window, now, limit, evicted);
            var stored := window.Some? && !evicted && t in window.value.stamps && now - 1000 < t;
            && (v.window.Some? ==> (t in v.window.value.stamps <==> stored || (v.admitted && t == now)))
            && (v.window.None? ==> !v.admitted && !stored)
            && (v.window.Some? ==> v.window.value.stamps != {})
            && (v.admitted ==> v.window.Some? && v.window.value.expireAt == now + 1000)
            && (!v.admitted && v.window.Some? ==>
                  window.Some? && v.window.value.expireAt == window.value.expireAt)
  {
    var kept := Trim(if window.None? || evicted then {} else window.value.stamps, now);
    assert t in kept <==> window.Some? && !evicted && t in window.value.stamps && now - 1000 < t;
  }

  // ----- the full admission history

  /** The distinct admission instants within the window that ends at `now`. */
  function Recent(history: seq<int>, now: int): set<int> {
    set t | t in history && now - 1000 < t <= now
  }

  /** `window` is what a log of every admission would leave after calls up to instant `last`. */
  ghost predicate Agrees(window: Option<Window>, history: seq<int>, last: int) {
    && (forall t :: t in history ==> 0 <= t <= last)
    && (window.None? ==> Recent(history, last) == {})
    && (window.Some? ==>
          && (forall t :: t in window.value.stamps ==> t in history)
          && (forall t :: t in Recent(history, last) ==> t in window.value.stamps)
          && (forall t :: t in history ==> t + 1000 <= window.value.expireAt))
  }

  lemma TrimIsRecent(window: Option<Window>, history: seq<int>, last: int, now: int, evicted: bool)
    requires Agrees(window, history, last)
    requires 0 <= now && last <= now
    requires evicted ==> Evictable(window, now)
    ensures Trim(if window.None? || evicted then {} else window.value.stamps, now) == Recent(history, now)
  {
  }

  /** The script decides as the full history would, whether or not the key had expired, and stays in agreement. */
  lemma AllowRefinesHistory(window: Option<Window>, history: seq<int>, last: int, now: int, limit: int, evicted: bool)
    requires Agrees(window, history, last)
    requires 0 <= now && last <= now
    requires evicted ==> Evictable(window, now)
    ensures var v := Allow(window, now, limit, evicted);
            && v.admitted == (|Recent(history, now)| < limit)
            && Agrees(v.window, if v.admitted then history + [now] else history, now)
  {
    TrimIsRecent(window, history, last, now, evicted);
    var v := Allow(window, now, limit, evicted);
    if v.admitted {
      var longer := history + [now];
      assert forall t :: t in longer <==> t in history || t == now;
    }
  }

  /** Every admission was granted with fewer than `limit` distinct admissions in the window before it. */
  ghost predicate Throttled(history: seq<int>, limit: int) {
    history == [] ||
    (var past, last := history[..|history| - 1], history[|history| - 1];
     && Throttled(past, limit)
     && (forall t :: t in past ==> t <= last)
     && |Recent(past, last)| < limit)
  }

  lemma ThrottledExtends(history: seq<int>, now: int, limit: int)
    requires Throttled(history, limit)
    requires forall t :: t in history ==> t <= now
    requires |Recent(history, now)| < limit
    ensures Throttled(history + [now], limit)
  {
    assert (history + [now])[..|history|] == history;
  }

  /** Any window of 1000 ms, wherever it ends, holds at most `limit` distinct admission instants. */
  lemma {:induction false} WindowBound(history: seq<int>, limit: nat, end: int)
    requires Throttled(history, limit)
    ensures |Recent(history, end)| <= limit
    decreases |history|
  {
    if history == [] {
      assert Recent(history, end) == {};
    } else {
      var past, last := history[..|history| - 1], history[|history| - 1];
      assert history == past + [last];
      if end < last {
        assert Recent(history, end) == Recent(past, end);
        WindowBound(past, limit, end);
      } else {
        SubsetSize(Recent(history, end), Recent(past, last) + {last});
      }
    }
  }

  // ----- the documented "5 requests per second" counts requests, the sorted set counts milliseconds

  /** How many of `calls` calls at the one instant `now` are admitted. */
  function Burst(window: Option<Window>, now: int, limit: int, calls: nat): nat
    decreases calls
  {
    if calls == 0 then 0
    else
      var v := Allow(window, now, limit, false);
      (if v.admitted then 1 else 0) + Burst(v.window, now, limit, calls - 1)
  }

  function Live(window: Option<Window>, now: int): set<int> {
    if window.None? then {} else Trim(window.value.stamps, now)
  }

  /** A burst within one millisecond is cut off only when it starts with at most one free slot. */
  lemma {:induction false} BurstAdmits(window: Option<Window>, now: int, limit: int, calls: nat)
    requires 0 <= now
    ensures Burst(window, now, limit, calls) ==
            var used := |Live(window, now)|;
            if used >= limit then 0
            else if used == limit - 1 && now !in Live(window, now) then (if calls == 0 then 0 else 1)
            else calls
    decreases calls
  {
    if calls == 0 {
    } else {
      var v := Allow(window, now, limit, false);
      BurstAdmits(v.window, now, limit, calls - 1);
      var live := Live(window, now);
      if v.admitted {
        assert Live(v.window, now) == live + {now};
      } else if v.window.Some? {
        assert Live(v.window, now) == live;
      }
    }
  }

  /** The admissions of the last second, each request counted. */
  function Requests(history: seq<int>, now: int): nat {
    if history == [] then 0
    else
      var t := history[|history| - 1];
      Requests(history[..|history| - 1], now) + (if now - 1000 < t <= now then 1 else 0)
  }

  /** A millisecond is counted once by the sorted set, however many requests it admitted. */
  lemma {:induction false} InstantsAtMostRequests(history: seq<int>, now: int)
    ensures |Recent(history, now)| <= Requests(history, now)
  {
    if history == [] {
      assert Recent(history, now) == {};
    } else {
      var past, t := history[..|history| - 1], history[|history| - 1];
      InstantsAtMostRequests(past, now);
      assert history == past + [t];
      if now - 1000 < t <= now {
        assert Recent(history, now) == Recent(past, now) + {t};
      } else {
        assert Recent(history, now) == Recent(past, now);
      }
    }
  }

  /** Every burst keeps the number of requests in the last second within the documented limit if and only if each
      millisecond so far admitted one request only, and no slot is free, or the last one and this millisecond is new. */
  lemma BurstWithinLimitIff(window: Option<Window>, history: seq<int>, last: int, now: int, limit: nat)
    requires Agrees(window, history, last) && Throttled(history, limit)
    requires 0 <= now && last <= now && 0 < limit
    ensures (forall calls: nat :: Requests(history, now) + Burst(window, now, limit, calls) <= limit) <==>
            && Requests(history, now) == |Recent(history, now)|
            && (|Recent(history, now)| == limit
                || (|Recent(history, now)| == limit - 1 && now !in Recent(history, now)))
  {
    var instants, requests := |Recent(history, now)|, Requests(history, now);
    TrimIsRecent(window, history, last, now, false);
    assert Live(window, now) == Recent(history, now);
    WindowBound(history, limit, now);
    InstantsAtMostRequests(history, now);
    forall calls: nat
      ensures Burst(window, now, limit, calls) == if instants == limit then 0
              else if instants == limit - 1 && now !in Recent(history, now) then (if calls == 0 then 0 else 1)
              else calls
    {
      BurstAdmits(window, now, limit, calls);
    }
    assert Burst(window, now, limit, limit + 1) >= if instants == limit then 0 else 1;
    assert Burst(window, now, limit, 0) == 0;
  }

  /** From an idle key, six requests of one millisecond all pass the limit of five per second. */
  lemma SixInOneMillisecond(now: int)
    requires 0 <= now
    ensures Burst(None, now, 5, 6) == 6
  {
    BurstAdmits(None, now, 5, 6);
  }
}
