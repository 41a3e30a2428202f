/** The shared stores: the job table, the delay queue, the cancellation flags, the limiter keys, the topic. */
module Stores {
  import opened FiniteSets
  import opened Jobs
  import opened RateLimiter
  import opened Protocol

  function Ids(page: seq<JobId>): set<JobId> { set i | i in page }

  ghost predicate Distinct(page: seq<JobId>) { forall i, k :: 0 <= i < k < |page| ==> page[i] != page[k] }

  ghost predicate Sorted(rows: Rows, order: Order, page: seq<JobId>) {
    && Ids(page) <= rows.Keys
    && forall i, k :: 0 <= i < k < |page| ==> SortKey(order, rows[page[i]]) <= SortKey(order, rows[page[k]])
  }

  lemma {:induction false} DistinctSize(page: seq<JobId>)
    requires Distinct(page)
    ensures |Ids(page)| == |page|
  {
    if page == [] {
      assert Ids(page) == {};
    } else {
      var n := |page| - 1;
      DistinctSize(page[..n]);
      assert Ids(page) == Ids(page[..n]) + {page[n]};
      assert page[n] !in page[..n];
    }
  }

  class JobRepository {
    var rows: Rows

    constructor ()
      ensures rows == map[]
    {
      rows := map[];
    }

    method Save(id: JobId, job: Job)
      modifies this
      ensures rows == old(rows)[id := job]
    {
      rows := rows[id := job];
    }

    method FindWindow(lo: int, hi: int, limit: nat) returns (page: seq<JobId>)
      ensures IsPage(rows, PendingWindow(rows, lo, hi), BySchedule, limit, Ids(page))
      ensures Distinct(page) && Sorted(rows, BySchedule, page)
    {
      page := FirstPage(rows, PendingWindow(rows, lo, hi), BySchedule, limit);
    }

    method FindRetryWindow(lo: int, hi: int, limit: nat) returns (page: seq<JobId>)
      ensures IsPage(rows, RetryWindow(rows, lo, hi), ByRetryTime, limit, Ids(page))
      ensures Distinct(page) && Sorted(rows, ByRetryTime, page)
    {
      page := FirstPage(rows, RetryWindow(rows, lo, hi), ByRetryTime, limit);
    }

    method FindPendingOrScheduledInRange(lo: int, hi: int, limit: nat) returns (page: seq<JobId>)
      ensures IsPage(rows, PendingOrScheduledInRange(rows, lo, hi), Unordered, limit, Ids(page))
      ensures Distinct(page)
    {
      page := FirstPage(rows, PendingOrScheduledInRange(rows, lo, hi), Unordered, limit);
    }

    method FindRetryInRange(lo: int, hi: int, limit: nat) returns (page: seq<JobId>)
      ensures IsPage(rows, RetryWindow(rows, lo, hi), Unordered, limit, Ids(page))
      ensures Distinct(page)
    {
      page := FirstPage(rows, RetryWindow(rows, lo, hi), Unordered, limit);
    }

    method FindOverdueScheduled(now: int, limit: nat) returns (page: seq<JobId>)
      ensures IsPage(rows, OverdueScheduled(rows, now), BySchedule, limit, Ids(page))
      ensures Distinct(page) && Sorted(rows, BySchedule, page)
    {
      page := FirstPage(rows, OverdueScheduled(rows, now), BySchedule, limit);
    }

    method FindRetryDue(now: int, limit: nat) returns (page: seq<JobId>)
      ensures IsPage(rows, RetryDue(rows, now), ByRetryTime, limit, Ids(page))
      ensures Distinct(page) && Sorted(rows, ByRetryTime, page)
    {
      page := FirstPage(rows, RetryDue(rows, now), ByRetryTime, limit);
    }
  }

  /** WHERE id IN matching ORDER BY order LIMIT limit; ties come in any order. */
  method FirstPage(rows: Rows, matching: set<JobId>, order: Order, limit: nat) returns (page: seq<JobId>)
    requires matching <= rows.Keys
    ensures IsPage(rows, matching, order, limit, Ids(page))
    ensures Distinct(page) && Sorted(rows, order, page)
  {
    page := [];
    var rest := matching;
    while |page| < limit && rest != {}
      invariant Ids(page) + rest == matching && |page| <= limit
      invariant Selecting(rows, order, page, rest)
      decreases rest
    {
      var id := Least(rows, rest, order);
      AppendLeast(rows, order, page, rest, id);
      page := page + [id];
      rest := rest - {id};
    }
    SelectedIsPage(rows, matching, order, limit, page, rest);
  }

  /** `page` holds the smallest keys so far, each id once and in order; `rest` is what remains to choose from. */
  ghost predicate Selecting(rows: Rows, order: Order, page: seq<JobId>, rest: set<JobId>) {
    && rest <= rows.Keys && Ids(page) !! rest
    && |Ids(page)| == |page|
    && Distinct(page) && Sorted(rows, order, page)
    && forall p, q :: p in Ids(page) && q in rest ==> SortKey(order, rows[p]) <= SortKey(order, rows[q])
  }

  lemma SelectedIsPage(rows: Rows, matching: set<JobId>, order: Order, limit: nat, page: seq<JobId>, rest: set<JobId>)
    requires Selecting(rows, order, page, rest) && Ids(page) + rest == matching
    requires |page| <= limit && (|page| < limit ==> rest == {}) && matching <= rows.Keys
    ensures IsPage(rows, matching, order, limit, Ids(page))
  {
    assert rest == matching - Ids(page);
  }

  lemma OneMoreId(page: seq<JobId>, id: JobId)
    ensures Ids(page + [id]) == Ids(page) + {id}
    ensures id !in Ids(page) && Distinct(page) ==> Distinct(page + [id])
  {
    assert Ids(page + [id]) == Ids(page) + {id};
    assert forall k :: 0 <= k < |page| ==> page[k] in Ids(page);
  }

  lemma OneMoreSorted(rows: Rows, order: Order, page: seq<JobId>, id: JobId)
    requires Sorted(rows, order, page) && id in rows
    requires forall p :: p in Ids(page) ==> SortKey(order, rows[p]) <= SortKey(order, rows[id])
    ensures Sorted(rows, order, page + [id])
  {
    var longer := page + [id];
    OneMoreId(page, id);
    forall i, k | 0 <= i < k < |longer|
      ensures SortKey(order, rows[longer[i]]) <= SortKey(order, rows[longer[k]])
    {
      assert longer[i] == page[i] && page[i] in Ids(page);
    }
  }

  lemma AppendLeast(rows: Rows, order: Order, page: seq<JobId>, rest: set<JobId>, id: JobId)
    requires Selecting(rows, order, page, rest)
    requires id in rest && forall i :: i in rest ==> SortKey(order, rows[id]) <= SortKey(order, rows[i])
    ensures Ids(page + [id]) + (rest - {id}) == Ids(page) + rest
    ensures Selecting(rows, order, page + [id], rest - {id})
  {
    OneMoreId(page, id);
    OneMoreSorted(rows, order, page, id);
  }

  method Least(rows: Rows, ids: set<JobId>, order: Order) returns (least: JobId)
    requires ids != {} && ids <= rows.Keys
    ensures least in ids
    ensures forall i :: i in ids ==> SortKey(order, rows[least]) <= SortKey(order, rows[i])
  {
    Inhabited(ids);
    least :| least in ids;
    var rest := ids - {least};
    while rest != {}
      invariant least in ids && rest <= ids
      invariant forall i :: i in ids - rest ==> SortKey(order, rows[least]) <= SortKey(order, rows[i])
      decreases rest
    {
      Inhabited(rest);
      var id :| id in rest;
      if SortKey(order, rows[id]) < SortKey(order, rows[least]) {
        least := id;
      }
      rest := rest - {id};
    }
  }

  class RedisDelayQueueService {
    var zset: Scores

    constructor ()
      ensures zset == map[]
    {
      zset := map[];
    }

    method ScheduleJob(id: JobId, time: int)
      modifies this
      ensures zset == old(zset)[id := time]
    {
      zset := zset[id := time];
    }

    method GetReadyJobs(now: int) returns (ids: set<JobId>)
      ensures ids == Ready(zset, now)
    {
      ids := Ready(zset, now);
    }

    method RemoveJob(id: JobId)
      modifies this
      ensures zset == old(zset) - {id}
    {
      zset := zset - {id};
    }
  }

  class RedisService {
    var flags: map<JobId, int>

    constructor ()
      ensures flags == map[]
    {
      flags := map[];
    }

    ghost function View(rest: Sys, now: int): Sys
      reads this
    {
      rest.(clock := now, flags := flags)
    }

    method CancelJob(id: JobId, now: int, ghost rest: Sys)
      modifies this
      ensures View(rest, now) == Next(old(View(rest, now)), Cancel(id))
    {
      flags := flags[id := now + CANCEL_TTL];
    }

    method IsCancelled(id: JobId, now: int) returns (cancelled: bool)
      ensures cancelled <==> id in flags && now < flags[id]
    {
      cancelled := id in flags && now < flags[id];
    }

    method ClearCancellation(id: JobId)
      modifies this
      ensures flags == old(flags) - {id}
    {
      flags := flags - {id};
    }
  }

  class RateLimiterService {
    var windows: map<JobType, Window>

    constructor ()
      ensures windows == map[]
    {
      windows := map[];
    }

    ghost function Key(typ: JobType): Option<Window>
      reads this
    {
      if typ in windows then Some(windows[typ]) else None
    }

    /** The Lua script; `evicted` says whether Redis had already dropped the expired key. */
    method Allow(typ: JobType, limit: int, now: int, evicted: bool) returns (admitted: bool)
      modifies this
      ensures var v := RateLimiter.Allow(old(Key(typ)), now, limit, evicted);
              admitted == v.admitted && windows == StoreWindow(old(windows), typ, v.window)
    {
      if evicted {
        windows := windows - {typ};
      }
      var stamps := if typ in windows then Trim(windows[typ].stamps, now) else {};
      if stamps == {} {
        windows := windows - {typ};
      } else {
        windows := windows[typ := windows[typ].(stamps := stamps)];
      }
      var count := |stamps|;
      if count >= limit {
        return false;
      }
      windows := windows[typ := Window(stamps + {now}, now + RATE_WINDOW)];
      return true;
    }
  }

  /** The job topic, seen from both ends. */
  class JobTopic {
    var pending: multiset<JobId>
    ghost var sent: set<JobId>

    constructor ()
      ensures pending == multiset{} && sent == {}
    {
      pending := multiset{};
      sent := {};
    }

    method SendJob(id: JobId)
      modifies this
      ensures pending == old(pending) + multiset{id} && sent == old(sent) + {id}
    {
      pending := pending + multiset{id};
      sent := sent + {id};
    }

    method Acknowledge(id: JobId)
      modifies this
      ensures pending == old(pending) - multiset{id} && sent == old(sent)
    {
      pending := pending - multiset{id};
    }
  }
}
