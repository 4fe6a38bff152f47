/** The discovery sweep: which due queries are queued under the remaining allowance, and how far apart two
    searches of one query are. */
module Discovery {
  import opened Wrappers

  type QueryId = nat

  /** `interval` is the effective interval of the query. */
  datatype Query = Query(priority: int, eligible: Option<int>, created: int, lastRun: Option<int>, interval: nat)
  {
    /** A row without an eligibility of its own derives it from its last run. */
    function EligibleAt(): Option<int> {
      if eligible.None? && lastRun.Some? then Some(lastRun.value + interval) else eligible
    }

    predicate Due(now: int) {
      EligibleAt().None? || EligibleAt().value <= now
    }
  }

  type Table = map<QueryId, Query>

  /** Which enqueue the queue accepts; it refuses a query that still has an outstanding job. */
  type Queue = QueryId -> bool

  datatype Progress = Progress(queries: Table, enqueued: seq<QueryId>)

  // ---------------------------------------------------------------- the sweep as a function

  function Visit(p: Progress, id: QueryId, now: int, queue: Queue): Progress
    requires id in p.queries
  {
    var q := p.queries[id];
    if q.Due(now) && queue(id) then Progress(p.queries[id := q.(eligible := Some(now + q.interval))], p.enqueued + [id])
    else p.(queries := p.queries[id := q.(eligible := q.EligibleAt())])
  }

  ghost predicate Rows(queries: Table, order: seq<QueryId>) {
    && (forall i :: 0 <= i < |order| ==> order[i] in queries)
    && (forall i, j :: 0 <= i < j < |order| ==> order[i] != order[j])
  }

  /** After the first `n` rows: once the allowance is used up, the rest is left alone. */
  function After(queries: Table, order: seq<QueryId>, n: nat, now: int, allowance: int, queue: Queue): (p: Progress)
    requires n <= |order| && forall i :: 0 <= i < |order| ==> order[i] in queries
    ensures p.queries.Keys == queries.Keys
  {
    if n == 0 then Progress(queries, [])
    else
      var p := After(queries, order, n - 1, now, allowance, queue);
      if |p.enqueued| >= allowance then p else Visit(p, order[n - 1], now, queue)
  }

  class Schedule {
    var queries: Table
    var jobs: seq<QueryId>

    /** One sweep over the locked rows, in the order the database returned them. */
    method EnqueueDueSearches(order: seq<QueryId>, now: int, allowance: int, queue: Queue)
      requires Rows(queries, order)
      modifies this
      ensures var p := After(old(queries), order, |order|, now, allowance, queue);
              queries == p.queries && jobs == old(jobs) + p.enqueued
    {
      var enqueued := 0;
      ghost var before, jobsBefore := queries, jobs;
      hide After;
      AfterNothing(before, order, now, allowance, queue);
      var i := 0;
      while i < |order|
        invariant i <= |order|
        invariant var p := After(before, order, i, now, allowance, queue);
                  queries == p.queries && jobs == jobsBefore + p.enqueued && enqueued == |p.enqueued|
      {
        AfterOne(before, order, i + 1, now, allowance, queue);
        if enqueued >= allowance {
          NothingMore(before, order, i, |order|, now, allowance, queue);
          break;
        }
        var id := order[i];
        i := i + 1;
        var query := queries[id];
        var eligibleAt := query.eligible;
        if eligibleAt.None? && query.lastRun.Some? {
          eligibleAt := Some(query.lastRun.value + query.interval);
          query := query.(eligible := eligibleAt);
        }
        if eligibleAt.None? || eligibleAt.value <= now {
          if queue(id) {
            jobs := jobs + [id];
            enqueued := enqueued + 1;
            query := query.(eligible := Some(now + query.interval));
          }
        }
        queries := queries[id := query];
      }
    }
  }

  lemma AfterNothing(queries: Table, order: seq<QueryId>, now: int, allowance: int, queue: Queue)
    requires forall k :: 0 <= k < |order| ==> order[k] in queries
    ensures After(queries, order, 0, now, allowance, queue) == Progress(queries, [])
  {
  }

  lemma AfterOne(queries: Table, order: seq<QueryId>, n: nat, now: int, allowance: int, queue: Queue)
    requires 0 < n <= |order| && forall k :: 0 <= k < |order| ==> order[k] in queries
    ensures var p := After(queries, order, n - 1, now, allowance, queue);
            After(queries, order, n, now, allowance, queue) ==
              (if |p.enqueued| >= allowance then p else Visit(p, order[n - 1], now, queue))
  {
  }

  lemma {:induction false} NothingMore(queries: Table, order: seq<QueryId>, i: nat, n: nat, now: int, allowance: int, queue: Queue)
    requires i <= n <= |order| && forall k :: 0 <= k < |order| ==> order[k] in queries
    requires |After(queries, order, i, now, allowance, queue).enqueued| >= allowance
    ensures After(queries, order, n, now, allowance, queue) == After(queries, order, i, now, allowance, queue)
    decreases n
  {
    if i < n { NothingMore(queries, order, i, n - 1, now, allowance, queue); }
  }

  // ---------------------------------------------------------------- greedy, in order

  /** The due rows of the list, in its order. */
  function DueIn(queries: Table, order: seq<QueryId>, now: int): seq<QueryId>
    requires forall i :: 0 <= i < |order| ==> order[i] in queries
  {
    if order == [] then []
    else
      var last := order[|order| - 1];
      DueIn(queries, order[..|order| - 1], now) + (if queries[last].Due(now) then [last] else [])
  }

  function Firsts<T>(s: seq<T>, n: int): seq<T> {
    if n <= 0 then [] else if n < |s| then s[..n] else s
  }

  lemma {:induction false} UnvisitedUnchanged(queries: Table, order: seq<QueryId>, n: nat, now: int, allowance: int, queue: Queue, id: QueryId)
    requires n <= |order| && Rows(queries, order) && id in queries && id !in order[..n]
    ensures After(queries, order, n, now, allowance, queue).queries[id] == queries[id]
  {
    if n > 0 {
      assert order[n - 1] in order[..n] && order[..n - 1] <= order[..n];
      UnvisitedUnchanged(queries, order, n - 1, now, allowance, queue, id);
    }
  }

  /** When every enqueue succeeds, a sweep queues exactly the first due queries of the order, up to the
      allowance. */
  lemma {:induction false} FirstDueUpToAllowance(queries: Table, order: seq<QueryId>, n: nat, now: int, allowance: int, queue: Queue)
    requires n <= |order| && Rows(queries, order) && forall id :: queue(id)
    ensures After(queries, order, n, now, allowance, queue).enqueued == Firsts(DueIn(queries, order[..n], now), allowance)
  {
    if n > 0 {
      hide After;
      AfterOne(queries, order, n, now, allowance, queue);
      FirstDueUpToAllowance(queries, order, n - 1, now, allowance, queue);
      UnvisitedUnchanged(queries, order, n - 1, now, allowance, queue, order[n - 1]);
      assert order[..n][..n - 1] == order[..n - 1];
    }
  }

  /** Priority first, then the longest eligible (never run first), then the oldest. */
  predicate NotAfter(a: Query, b: Query) {
    a.priority < b.priority ||
    (a.priority == b.priority &&
      (if a.eligible == b.eligible then a.created <= b.created
       else a.eligible.None? || (b.eligible.Some? && a.eligible.value < b.eligible.value)))
  }

  /** The order is total and transitive, ranks by priority first, and puts never eligible rows before dated ones. */
  lemma RanksExactly(a: Query, b: Query, c: Query)
    ensures NotAfter(a, b) || NotAfter(b, a)
    ensures NotAfter(a, b) && NotAfter(b, c) ==> NotAfter(a, c)
    ensures a.priority < b.priority ==> !NotAfter(b, a)
    ensures a.priority == b.priority && a.eligible.None? && b.eligible.Some? ==> !NotAfter(b, a)
    ensures a.priority == b.priority && a.eligible.Some? && b.eligible.Some? && a.eligible.value < b.eligible.value ==> !NotAfter(b, a)
    ensures a.priority == b.priority && a.eligible == b.eligible && a.created < b.created ==> !NotAfter(b, a)
  {
  }

  ghost predicate Sorted(queries: Table, order: seq<QueryId>)
    requires Rows(queries, order)
  {
    forall i, j :: 0 <= i < j < |order| ==> NotAfter(queries[order[i]], queries[order[j]])
  }

  lemma {:induction false} DueOf(queries: Table, order: seq<QueryId>, now: int, k: nat) returns (i: nat)
    requires Rows(queries, order) && k < |DueIn(queries, order, now)|
    ensures k <= i < |order| && order[i] == DueIn(queries, order, now)[k] && queries[order[i]].Due(now)
    ensures DueIn(queries, order[..i], now) == DueIn(queries, order, now)[..k]
  {
    var init := order[..|order| - 1];
    var before, due := DueIn(queries, init, now), DueIn(queries, order, now);
    if k < |before| {
      i := DueOf(queries, init, now, k);
      assert init[..i] == order[..i];
      assert due[..k] == before[..k];
    } else {
      i := |order| - 1;
      assert due[..k] == before;
      DueIsFew(queries, init, now);
    }
  }

  lemma {:induction false} DueIsFew(queries: Table, order: seq<QueryId>, now: int)
    requires Rows(queries, order)
    ensures |DueIn(queries, order, now)| <= |order|
  {
    if order != [] { DueIsFew(queries, order[..|order| - 1], now); }
  }

  lemma {:induction false} DueIsFound(queries: Table, order: seq<QueryId>, now: int, i: nat) returns (k: nat)
    requires Rows(queries, order) && i < |order| && queries[order[i]].Due(now)
    ensures k < |DueIn(queries, order, now)| && DueIn(queries, order, now)[k] == order[i]
  {
    var init := order[..|order| - 1];
    if i < |init| { k := DueIsFound(queries, init, now, i); } else { k := |DueIn(queries, init, now)|; }
  }

  /** So a due query is left out only when the allowance is spent, and only in favour of queries that
      rank no lower. */
  lemma NothingBetterLeftOut(queries: Table, order: seq<QueryId>, now: int, allowance: int, queue: Queue, i: nat, e: QueryId)
    requires Rows(queries, order) && Sorted(queries, order) && forall id :: queue(id)
    requires i < |order| && queries[order[i]].Due(now)
    requires order[i] !in After(queries, order, |order|, now, allowance, queue).enqueued
    ensures var enqueued := After(queries, order, |order|, now, allowance, queue).enqueued;
            && |enqueued| == (if allowance < 0 then 0 else allowance)
            && (e in enqueued ==> e in queries && NotAfter(queries[e], queries[order[i]]))
  {
    FirstDueUpToAllowance(queries, order, |order|, now, allowance, queue);
    assert order[..|order|] == order;
    var due := DueIn(queries, order, now);
    var k := DueIsFound(queries, order, now, i);
    var enqueued := Firsts(due, allowance);
    assert enqueued == due[..|enqueued|];
    if e in enqueued {
      var m :| 0 <= m < |enqueued| && enqueued[m] == e;
      DueKeepsOrder(queries, order, now, m, k);
    }
  }

  lemma {:induction false} DueKeepsOrder(queries: Table, order: seq<QueryId>, now: int, m: nat, k: nat)
    requires Rows(queries, order) && Sorted(queries, order) && m < k < |DueIn(queries, order, now)|
    ensures var due := DueIn(queries, order, now);
            due[m] in queries && due[k] in queries && NotAfter(queries[due[m]], queries[due[k]])
  {
    var j := DueOf(queries, order, now, k);
    var i := DueOf(queries, order[..j], now, m);
    assert order[..j][i] == order[i];
  }

  // ---------------------------------------------------------------- spacing

  /** A sequence of sweeps with nothing else writing the rows in between. */
  datatype Sweep = Sweep(order: seq<QueryId>, now: int, allowance: int, queue: Queue)

  function Result(queries: Table, s: Sweep): Progress
    requires forall i :: 0 <= i < |s.order| ==> s.order[i] in queries
  {
    After(queries, s.order, |s.order|, s.now, s.allowance, s.queue)
  }

  ghost predicate Sweeps(tables: seq<Table>, sweeps: seq<Sweep>) {
    && |tables| == |sweeps| + 1
    && forall i :: 0 <= i < |sweeps| ==> Rows(tables[i], sweeps[i].order) && tables[i + 1] == Result(tables[i], sweeps[i]).queries
  }

  /** What one sweep does to one query: its interval stays, an eligibility never moves back, and being
      queued needs it to be due and pushes its eligibility a full interval past the sweep. */
  ghost predicate QueryMoves(q: Query, q': Query, now: int, queued: bool) {
    && q'.interval == q.interval
    && (q.eligible.Some? ==> q'.eligible.Some? && q.eligible.value <= q'.eligible.value)
    && (queued ==> q.Due(now) && q'.eligible.Some? && now + q.interval <= q'.eligible.value)
  }

  lemma {:induction false} SweepMoves(queries: Table, order: seq<QueryId>, n: nat, now: int, allowance: int, queue: Queue, id: QueryId)
    requires n <= |order| && Rows(queries, order) && id in queries
    ensures var p := After(queries, order, n, now, allowance, queue);
            QueryMoves(queries[id], p.queries[id], now, id in p.enqueued)
            && (id in p.enqueued ==> id in order[..n])
  {
    if n == 0 {
      AfterNothing(queries, order, now, allowance, queue);
    } else {
      hide After;
      AfterOne(queries, order, n, now, allowance, queue);
      SweepMoves(queries, order, n - 1, now, allowance, queue, id);
      assert order[..n] == order[..n - 1] + [order[n - 1]];
      if id == order[n - 1] {
        assert id !in order[..n - 1];
        UnvisitedUnchanged(queries, order, n - 1, now, allowance, queue, id);
      }
    }
  }

  /** What one sweep writes to a query's row: a full interval from now when it is queued; otherwise, if the
      sweep got to it, the eligibility it derived for a row that had none; and nothing else. */
  lemma {:induction false} RowAfterSweep(queries: Table, order: seq<QueryId>, n: nat, now: int, allowance: int, queue: Queue, id: QueryId)
    requires n <= |order| && Rows(queries, order) && id in queries
    ensures var p, q := After(queries, order, n, now, allowance, queue), queries[id];
            if id in p.enqueued then
              id in order[..n] && p.queries[id] == q.(eligible := Some(now + q.interval))
            else
              p.queries[id] == q ||
              (id in order[..n] && q.eligible.None? && q.lastRun.Some? && p.queries[id] == q.(eligible := Some(q.lastRun.value + q.interval)))
  {
    hide After;
    if n == 0 {
      AfterNothing(queries, order, now, allowance, queue);
    } else {
      AfterOne(queries, order, n, now, allowance, queue);
      RowAfterSweep(queries, order, n - 1, now, allowance, queue, id);
      assert order[..n] == order[..n - 1] + [order[n - 1]];
      if id == order[n - 1] {
        assert id !in order[..n - 1];
        UnvisitedUnchanged(queries, order, n - 1, now, allowance, queue, id);
      }
    }
  }

  /** With room for all and a queue that takes all, what is queued is exactly what is due: rows never run, rows
      whose eligibility has come, and rows without one an interval after their last run. */
  lemma QueuedExactly(queries: Table, order: seq<QueryId>, now: int, allowance: int, queue: Queue, i: nat)
    requires Rows(queries, order) && i < |order| && (forall id :: queue(id)) && |order| <= allowance
    ensures var q := queries[order[i]];
            order[i] in After(queries, order, |order|, now, allowance, queue).enqueued <==>
              if q.eligible.Some? then q.eligible.value <= now
              else if q.lastRun.Some? then q.lastRun.value + q.interval <= now else true
  {
    FirstDueUpToAllowance(queries, order, |order|, now, allowance, queue);
    assert order[..|order|] == order;
    DueIsFew(queries, order, now);
    if queries[order[i]].Due(now) {
      var k := DueIsFound(queries, order, now, i);
    } else if order[i] in DueIn(queries, order, now) {
      var k :| 0 <= k < |DueIn(queries, order, now)| && DueIn(queries, order, now)[k] == order[i];
      var j := DueOf(queries, order, now, k);
    }
  }

  /** A query is never queued early: not before its eligibility, and a row written before that column
      existed not before an interval after its last run. */
  lemma NeverEarly(queries: Table, order: seq<QueryId>, now: int, allowance: int, queue: Queue, id: QueryId)
    requires Rows(queries, order) && id in queries
    requires id in After(queries, order, |order|, now, allowance, queue).enqueued
    ensures queries[id].eligible.Some? ==> queries[id].eligible.value <= now
    ensures queries[id].eligible.None? && queries[id].lastRun.Some? ==> queries[id].lastRun.value + queries[id].interval <= now
  {
    SweepMoves(queries, order, |order|, now, allowance, queue, id);
  }

  lemma {:induction false} EligibilityHolds(tables: seq<Table>, sweeps: seq<Sweep>, i: nat, j: nat, id: QueryId)
    requires Sweeps(tables, sweeps) && i < j < |tables| && id in tables[i]
    requires id in Result(tables[i], sweeps[i]).enqueued
    ensures id in tables[j] && tables[j][id].eligible.Some?
    ensures sweeps[i].now + tables[i][id].interval <= tables[j][id].eligible.value
    decreases j
  {
    var s, t := sweeps[j - 1], tables[j - 1];
    assert Rows(t, s.order) && tables[j - 1 + 1] == Result(t, s).queries;
    if j > i + 1 { EligibilityHolds(tables, sweeps, i, j - 1, id); }
    SweepMoves(t, s.order, |s.order|, s.now, s.allowance, s.queue, id);
  }

  /** Two enqueues of one query are at least its interval apart, whatever happens to the others. */
  lemma EnqueuesAreSpaced(tables: seq<Table>, sweeps: seq<Sweep>, i: nat, j: nat, id: QueryId)
    requires Sweeps(tables, sweeps) && i < j < |sweeps| && id in tables[i] && id in tables[j]
    requires id in Result(tables[i], sweeps[i]).enqueued && id in Result(tables[j], sweeps[j]).enqueued
    ensures sweeps[j].now >= sweeps[i].now + tables[i][id].interval
  {
    EligibilityHolds(tables, sweeps, i, j, id);
    var s := sweeps[j];
    SweepMoves(tables[j], s.order, |s.order|, s.now, s.allowance, s.queue, id);
  }
}
