/** The periodic reconciliation sweep: oldest first, a bounded batch, each attempt a bounded number of
    times. */
module ReconcileSweep {

  import opened Wrappers
  import L = Ledger

  /** An attempt marked sent as the sweep selects it: `open` says it is ambiguous or submitted. */
  datatype Row = Row(open: bool, sentAt: int, passes: nat)

  function RowOf(a: L.Attempt): Row
    requires a.sent && a.sentAt.Some?
  {
    Row(a.outcome == L.Ambiguous || a.outcome == L.Submitted, a.sentAt.value, a.passes)
  }

  predicate Eligible(r: Row, max: nat) {
    r.open && r.passes < max
  }

  /** What the selection returns: distinct eligible rows, as many as the limit allows, none of them
      younger than an eligible row left out. */
  ghost predicate Batch(rows: seq<Row>, picked: seq<nat>, limit: nat, max: nat) {
    && |picked| <= limit
    && (forall i :: 0 <= i < |picked| ==> picked[i] < |rows| && Eligible(rows[picked[i]], max))
    && (forall i, j :: 0 <= i < j < |picked| ==> picked[i] != picked[j])
    && (forall k :: 0 <= k < |rows| && Eligible(rows[k], max) && k !in picked ==>
          |picked| == limit && forall i :: 0 <= i < |picked| ==> rows[picked[i]].sentAt <= rows[k].sentAt)
  }

  /** One recorded pass is counted. An absent or a filled order closes the attempt; any other order that was
      found leaves it submitted, and so open. */
  function RowAfter(r: Row, result: L.Conclusion): Row {
    match result
    case OrderFound(_, status) => Row(status != L.Filled, r.sentAt, r.passes + 1)
    case OrderNotPlaced => Row(false, r.sentAt, r.passes + 1)
    case _ => Row(r.open, r.sentAt, r.passes + 1)
  }

  function Passed(rows: seq<Row>, k: nat, result: L.Conclusion): seq<Row>
    requires k < |rows|
  {
    rows[k := RowAfter(rows[k], result)]
  }

  /** The first `n` passes of a sweep. */
  function AfterPasses(rows: seq<Row>, picked: seq<nat>, results: nat -> L.Conclusion, n: nat): (after: seq<Row>)
    requires n <= |picked| && forall i :: 0 <= i < |picked| ==> picked[i] < |rows|
    ensures |after| == |rows|
  {
    if n == 0 then rows else Passed(AfterPasses(rows, picked, results, n - 1), picked[n - 1], results(picked[n - 1]))
  }

  predicate Resolves(result: L.Conclusion) {
    result.OrderFound? || result.OrderNotPlaced?
  }

  /** How many of the first `n` passes resolved their attempt. */
  function ResolvedOf(picked: seq<nat>, results: nat -> L.Conclusion, n: nat): (r: nat)
    requires n <= |picked|
    ensures r <= n
  {
    if n == 0 then 0
    else ResolvedOf(picked, results, n - 1) + (if Resolves(results(picked[n - 1])) then 1 else 0)
  }

  class Attempts {
    var rows: seq<Row>

    method Sweep(picked: seq<nat>, results: nat -> L.Conclusion) returns (checked: nat, resolved: nat)
      requires forall i :: 0 <= i < |picked| ==> picked[i] < |rows|
      modifies this
      ensures rows == AfterPasses(old(rows), picked, results, |picked|)
      ensures checked == |picked| && resolved == ResolvedOf(picked, results, |picked|)
    {
      resolved := 0;
      for i := 0 to |picked|
        invariant rows == AfterPasses(old(rows), picked, results, i) && resolved == ResolvedOf(picked, results, i)
      {
        var k := picked[i];
        var row := rows[k];
        row := row.(passes := row.passes + 1);
        var result := results(k);
        if result.OrderFound? {
          row := row.(open := result.status != L.Filled);
        } else if result.OrderNotPlaced? {
          row := row.(open := false);
        }
        if Resolves(result) { resolved := resolved + 1; }
        rows := rows[k := row];
      }
      checked := |picked|;
    }
  }

  /** The sweep's view of an attempt moves exactly as recording the pass moves the ledger. */
  lemma RowFollowsTheLedger(db: L.Db, aid: L.AttId, result: L.Conclusion)
    requires L.Valid(db) && aid < |db.attempts| && db.attempts[aid].sent
    ensures db.attempts[aid].proposal < |db.proposals| && db.attempts[aid].sentAt.Some?
    ensures var r := L.RecordConclusion(db, aid, result);
            && r.Some? && aid < |r.value.attempts| && r.value.attempts[aid].sent && r.value.attempts[aid].sentAt.Some?
            && RowOf(r.value.attempts[aid]) == RowAfter(RowOf(db.attempts[aid]), result)
  {
    hide L.Numbered, L.OneActivePerTicker, L.FlightHasSender, L.SentOnce;
    assert L.RowChecks(db.attempts[aid]);
  }

  /** What is selected: open attempts below the maximum, and when any such attempt is left out, as many as the
      limit allows, all of them sent no later. */
  lemma SelectedExactly(rows: seq<Row>, picked: seq<nat>, limit: nat, max: nat, k: nat)
    requires Batch(rows, picked, limit, max) && k < |rows|
    ensures k in picked ==> rows[k].open && rows[k].passes < max
    ensures rows[k].open && rows[k].passes < max && k !in picked ==>
              |picked| == limit && forall i :: 0 <= i < |picked| ==> rows[picked[i]].sentAt <= rows[k].sentAt
  {
  }

  /** What one sweep leaves of every row, column by column. */
  lemma {:induction false} SweptRow(rows: seq<Row>, picked: seq<nat>, results: nat -> L.Conclusion, n: nat, limit: nat, max: nat, k: nat)
    requires Batch(rows, picked, limit, max) && n <= |picked| && k < |rows|
    ensures var after := AfterPasses(rows, picked, results, n)[k];
            if k in picked[..n] then
              && after.sentAt == rows[k].sentAt && after.passes == rows[k].passes + 1
              && (results(k).OrderFound? ==> (after.open <==> results(k).status != L.Filled))
              && (results(k).OrderNotPlaced? ==> !after.open)
              && (!results(k).OrderFound? && !results(k).OrderNotPlaced? ==> after.open == rows[k].open)
            else after == rows[k]
  {
    if n > 0 {
      SweptRow(rows, picked, results, n - 1, limit, max, k);
      assert picked[..n] == picked[..n - 1] + [picked[n - 1]];
      assert picked[n - 1] !in picked[..n - 1];
    }
  }

  /** The number returned counts the passes that found the order or proved it absent. */
  lemma {:induction false} ResolvedExactly(picked: seq<nat>, results: nat -> L.Conclusion, n: nat)
    requires n <= |picked|
    ensures ResolvedOf(picked, results, n) ==
              |set i: nat | i < n && (results(picked[i]).OrderFound? || results(picked[i]).OrderNotPlaced?)|
  {
    var all := set i: nat | i < n && (results(picked[i]).OrderFound? || results(picked[i]).OrderNotPlaced?);
    if n == 0 {
      assert all == {};
    } else {
      ResolvedExactly(picked, results, n - 1);
      var before := set i: nat | i < n - 1 && (results(picked[i]).OrderFound? || results(picked[i]).OrderNotPlaced?);
      assert all == before + (if results(picked[n - 1]).OrderFound? || results(picked[n - 1]).OrderNotPlaced? then {n - 1} else {});
    }
  }

  // ---------------------------------------------------------------- the measure

  /** The passes a row may still be given, now or once it becomes eligible. */
  function Weight(r: Row, max: nat, upTo: int): nat {
    if r.passes < max && r.sentAt <= upTo then max - r.passes else 0
  }

  /** The passes left for the rows sent at or before an instant. */
  function Remaining(rows: seq<Row>, max: nat, upTo: int): nat {
    if rows == [] then 0 else Remaining(rows[..|rows| - 1], max, upTo) + Weight(rows[|rows| - 1], max, upTo)
  }

  lemma {:induction false} RemainingUpdate(rows: seq<Row>, k: nat, r: Row, max: nat, upTo: int)
    requires k < |rows|
    ensures Remaining(rows[k := r], max, upTo) + Weight(rows[k], max, upTo) == Remaining(rows, max, upTo) + Weight(r, max, upTo)
  {
    var last := |rows| - 1;
    if k < last {
      RemainingUpdate(rows[..last], k, r, max, upTo);
      assert rows[k := r][..last] == rows[..last][k := r];
    } else {
      assert rows[k := r][..last] == rows[..last];
    }
  }

  lemma PassLowers(rows: seq<Row>, k: nat, result: L.Conclusion, max: nat, upTo: int)
    requires k < |rows| && Eligible(rows[k], max) && rows[k].sentAt <= upTo
    ensures Remaining(Passed(rows, k, result), max, upTo) + 1 <= Remaining(rows, max, upTo)
  {
    hide Remaining;
    RemainingUpdate(rows, k, RowAfter(rows[k], result), max, upTo);
  }

  lemma {:induction false} UntouchedByPasses(rows: seq<Row>, picked: seq<nat>, results: nat -> L.Conclusion, n: nat, k: nat)
    requires n <= |picked| && (forall i :: 0 <= i < |picked| ==> picked[i] < |rows|) && k < |rows|
    requires forall i :: 0 <= i < n ==> picked[i] != k
    ensures AfterPasses(rows, picked, results, n)[k] == rows[k]
  {
    if n > 0 { UntouchedByPasses(rows, picked, results, n - 1, k); }
  }

  lemma {:induction false} PassesLower(rows: seq<Row>, picked: seq<nat>, results: nat -> L.Conclusion, n: nat, limit: nat, max: nat, upTo: int)
    requires Batch(rows, picked, limit, max) && n <= |picked|
    requires forall i :: 0 <= i < |picked| ==> rows[picked[i]].sentAt <= upTo
    ensures Remaining(AfterPasses(rows, picked, results, n), max, upTo) + n <= Remaining(rows, max, upTo)
  {
    if n > 0 {
      PassesLower(rows, picked, results, n - 1, limit, max, upTo);
      hide Remaining;
      var k := picked[n - 1];
      UntouchedByPasses(rows, picked, results, n - 1, k);
      PassLowers(AfterPasses(rows, picked, results, n - 1), k, results(k), max, upTo);
    }
  }

  // ---------------------------------------------------------------- runs

  /** Between sweeps others may record passes, send new attempts, and open and close attempts: every
      attempt starts out pending, and becomes eligible when it turns ambiguous or submitted. */
  ghost predicate Drifts(rows: seq<Row>, rows': seq<Row>) {
    && |rows| <= |rows'|
    && forall k :: 0 <= k < |rows| ==>
         rows'[k].sentAt == rows[k].sentAt && rows[k].passes <= rows'[k].passes
  }

  datatype Sweep = Sweep(picked: seq<nat>, results: nat -> L.Conclusion)

  /** `tables[i]` is what sweep `i` selects from. */
  ghost predicate Sweeps(tables: seq<seq<Row>>, sweeps: seq<Sweep>, limit: nat, max: nat) {
    && |tables| == |sweeps| + 1
    && forall i :: 0 <= i < |sweeps| ==>
         && Batch(tables[i], sweeps[i].picked, limit, max)
         && Drifts(AfterPasses(tables[i], sweeps[i].picked, sweeps[i].results, |sweeps[i].picked|), tables[i + 1])
  }

  /** Without other writers a sweep lowers the passes left in all by at least the attempts it checked. */
  lemma SweepLowersRemaining(rows: seq<Row>, s: Sweep, limit: nat, max: nat, latest: int)
    requires Batch(rows, s.picked, limit, max) && forall k :: 0 <= k < |rows| ==> rows[k].sentAt <= latest
    ensures Remaining(AfterPasses(rows, s.picked, s.results, |s.picked|), max, latest) + |s.picked| <= Remaining(rows, max, latest)
  {
    PassesLower(rows, s.picked, s.results, |s.picked|, limit, max, latest);
  }

  /** How often an attempt was checked by the first `n` sweeps. */
  function Checks(sweeps: seq<Sweep>, k: nat, n: nat): nat
    requires n <= |sweeps|
  {
    if n == 0 then 0 else Checks(sweeps, k, n - 1) + (if k in sweeps[n - 1].picked then 1 else 0)
  }

  lemma {:induction false} PassCounted(rows: seq<Row>, picked: seq<nat>, results: nat -> L.Conclusion, n: nat, limit: nat, max: nat, k: nat)
    requires Batch(rows, picked, limit, max) && n <= |picked| && k < |rows|
    ensures AfterPasses(rows, picked, results, n)[k].passes == rows[k].passes + (if k in picked[..n] then 1 else 0)
  {
    if n > 0 {
      PassCounted(rows, picked, results, n - 1, limit, max, k);
      assert picked[..n] == picked[..n - 1] + [picked[n - 1]];
      assert picked[n - 1] !in picked[..n - 1];
    }
  }

  /** No attempt, whenever it appeared, is ever swept more than the configured maximum. */
  lemma {:induction false} CheckedAtMostMax(tables: seq<seq<Row>>, sweeps: seq<Sweep>, limit: nat, max: nat, k: nat, n: nat)
    requires Sweeps(tables, sweeps, limit, max) && n <= |sweeps|
    ensures Checks(sweeps, k, n) <= (if k < |tables[n]| then tables[n][k].passes else 0)
    ensures Checks(sweeps, k, n) <= max
  {
    if n > 0 {
      CheckedAtMostMax(tables, sweeps, limit, max, k, n - 1);
      var rows, s := tables[n - 1], sweeps[n - 1];
      assert Batch(rows, s.picked, limit, max)
             && Drifts(AfterPasses(rows, s.picked, s.results, |s.picked|), tables[n - 1 + 1]);
      if k < |rows| {
        PassCounted(rows, s.picked, s.results, |s.picked|, limit, max, k);
        assert s.picked[..|s.picked|] == s.picked;
      }
    }
  }

  /** The rows that were added were sent after the instant. */
  ghost predicate OnlyLater(rows: seq<Row>, rows': seq<Row>, upTo: int) {
    forall k :: |rows| <= k < |rows'| ==> rows'[k].sentAt > upTo
  }

  lemma {:induction false} DriftLowers(rows: seq<Row>, rows': seq<Row>, max: nat, upTo: int)
    requires Drifts(rows, rows') && OnlyLater(rows, rows', upTo)
    ensures Remaining(rows', max, upTo) <= Remaining(rows, max, upTo)
    decreases |rows'|
  {
    if |rows'| > |rows| {
      DriftLowers(rows, rows'[..|rows'| - 1], max, upTo);
    } else if rows != [] {
      DriftLowers(rows[..|rows| - 1], rows'[..|rows'| - 1], max, upTo);
    }
  }

  /** The attempt could be checked, and this sweep does not check it. */
  ghost predicate Waits(rows: seq<Row>, s: Sweep, max: nat, k: nat) {
    k < |rows| && Eligible(rows[k], max) && k !in s.picked
  }

  lemma WaitingStep(rows: seq<Row>, s: Sweep, rows': seq<Row>, limit: nat, max: nat, k: nat)
    requires Batch(rows, s.picked, limit, max) && Waits(rows, s, max, k)
    requires Drifts(AfterPasses(rows, s.picked, s.results, |s.picked|), rows') && OnlyLater(rows, rows', rows[k].sentAt)
    ensures k < |rows'| && rows'[k].sentAt == rows[k].sentAt
    ensures Remaining(rows', max, rows[k].sentAt) + limit <= Remaining(rows, max, rows[k].sentAt)
  {
    hide Remaining;
    PassesLower(rows, s.picked, s.results, |s.picked|, limit, max, rows[k].sentAt);
    UntouchedByPasses(rows, s.picked, s.results, |s.picked|, k);
    DriftLowers(AfterPasses(rows, s.picked, s.results, |s.picked|), rows', max, rows[k].sentAt);
  }

  /** Every attempt's turn comes, even as later ones arrive: as long as it stays eligible and unchecked,
      every sweep spends its whole batch on attempts no younger, so the number of such sweeps times the
      batch size is bounded by the passes those attempts had left. */
  lemma {:induction false} TurnComes(tables: seq<seq<Row>>, sweeps: seq<Sweep>, limit: nat, max: nat, k: nat, n: nat)
    requires Sweeps(tables, sweeps, limit, max) && n <= |sweeps| && k < |tables[0]|
    requires forall i :: 0 <= i < n ==> Waits(tables[i], sweeps[i], max, k)
    requires forall i :: 0 <= i < n ==> OnlyLater(tables[i], tables[i + 1], tables[0][k].sentAt)
    ensures k < |tables[n]| && tables[n][k].sentAt == tables[0][k].sentAt
    ensures Remaining(tables[n], max, tables[0][k].sentAt) + n * limit <= Remaining(tables[0], max, tables[0][k].sentAt)
  {
    if n > 0 {
      TurnComes(tables, sweeps, limit, max, k, n - 1);
      hide Remaining, Batch, Waits, OnlyLater, Drifts;
      assert Batch(tables[n - 1], sweeps[n - 1].picked, limit, max);
      assert OnlyLater(tables[n - 1], tables[n - 1 + 1], tables[0][k].sentAt) && Waits(tables[n - 1], sweeps[n - 1], max, k);
      WaitingStep(tables[n - 1], sweeps[n - 1], tables[n], limit, max, k);
      OneMore(n, limit);
    }
  }

  lemma OneMore(n: nat, limit: nat)
    requires n > 0
    ensures n * limit == (n - 1) * limit + limit
  {
  }
}
