/** Why the checks of Guarded are needed: for each, a concrete run with a prompt broker and deep enough
    pages in which only that one check fails, and after which the guarantee is gone. */
module Counterexamples {
  import opened Wrappers
  import opened Lifecycle
  import opened Ledger
  import opened Matching
  import opened Protocol
  import opened ExecutionSafety
  import opened ReconciliationSafety
  import opened ReconciliationTheorems
  import P = Preflight
  import T = Transmission

  const C := Config(P.Settings("demo", "demo", [], true), 60, 900)
  const CLEAR := P.Revalidation([], None)

  function Row(status: Status, version: nat): Proposal {
    Proposal("AAPL", Buy, 3, "demo", status, version, 1000, Some(HumanWeb), Some(0), Manual)
  }

  function Sent(pid: PropId, number: nat, at: int): Attempt {
    Attempt(pid, number, true, Some(at), Pending, false, None, "AAPL", 3, 0)
  }

  /** Reached by a run that meets every assumption and every check. */
  ghost predicate Reached(s: State) {
    exists states, steps :: AssumedRun(C, states, steps) && states[|steps|] == s
  }

  lemma Start() returns (s: State)
    ensures Reached(s)
    ensures s == State(Db([], [], map[]), [], {}, multiset{}, map[], P.Control(false, false), 0)
  {
    s := State(Db([], [], map[]), [], {}, multiset{}, map[], P.Control(false, false), 0);
    var none: seq<Step> := [];
    assert AssumedRun(C, [s], none) && [s][|none|] == s;
  }

  lemma ReachedSound(s: State)
    requires Reached(s)
    ensures Sound(C, s)
  {
    var states, steps :| AssumedRun(C, states, steps) && states[|steps|] == s;
    RunSound(C, states, steps, |steps|);
  }

  lemma Extend(s: State, step: Step, t: State)
    requires Reached(s) && Next(C, s, step, t) && PageDeepEnough(C, s, step) && Guarded(s, step) && Timely(C, t)
    ensures Reached(t)
  {
    hide Next, Initial, Timely, Guarded, PageDeepEnough;
    var states, steps :| AssumedRun(C, states, steps) && states[|steps|] == s;
    var states', steps' := states + [t], steps + [step];
    assert AssumedRun(C, states', steps') && states'[|steps'|] == t;
  }

  /** A step that leaves the orders and the clock alone keeps the broker prompt. */
  lemma StaysTimely(s: State, step: Step, t: State)
    requires Sound(C, s) && Next(C, s, step, t) && t.orders == s.orders && t.clock == s.clock
    ensures Timely(C, t)
  {
    StepKeeps(C, s, step);
    forall id: OrderId, a: AttId | Owns(t.orders, id, a) ensures Prompt(C, t, id, a) {
      assert OwnerOk(s, id, a) && OwnerOk(t, id, a) && Prompt(C, s, id, a);
      assert AttemptEvolves(s.db.attempts[a], t.db.attempts[a]);
    }
  }

  lemma Quiet(s: State, step: Step, t: State)
    requires Reached(s) && Next(C, s, step, t) && PageDeepEnough(C, s, step) && Guarded(s, step)
    requires t.orders == s.orders && t.clock == s.clock
    ensures Reached(t)
  {
    ReachedSound(s);
    StaysTimely(s, step, t);
    Extend(s, step, t);
  }

  // ---------------------------------------------------------------- the steps the runs are made of

  lemma DoCreate(s: State, row: Proposal) returns (t: State)
    requires Reached(s) && PreExecution(row.status) && OneActivePerTicker(s.db.proposals + [row])
    ensures Reached(t) && t == s.(db := s.db.(proposals := s.db.proposals + [row]))
  {
    t := Apply(C, s, Create(row));
    Quiet(s, Create(row), t);
  }

  lemma DoApprove(s: State, pid: PropId) returns (t: State)
    requires Reached(s) && pid < |s.db.proposals| && s.db.proposals[pid] == Row(Ready, 1)
    requires OneActivePerTicker(s.db.proposals[pid := Row(Approved, 2)])
    ensures Reached(t) && t == s.(db := s.db.(proposals := s.db.proposals[pid := Row(Approved, 2)]))
  {
    t := Apply(C, s, Edit(pid, Row(Approved, 2)));
    Quiet(s, Edit(pid, Row(Approved, 2)), t);
  }

  lemma DoBegin(s: State, w: WorkerId, pid: PropId) returns (t: State)
    requires Reached(s) && Enabled(C, s, Begin(w, pid))
    ensures Reached(t) && t == Put(s, w, Opened(pid, s.clock))
  {
    t := Apply(C, s, Begin(w, pid));
    Quiet(s, Begin(w, pid), t);
  }

  lemma DoLoad(s: State, w: WorkerId, pid: PropId, now: int) returns (t: State)
    requires Reached(s) && w in s.workers && s.workers[w] == Opened(pid, now) && pid < |s.db.proposals|
    ensures Reached(t) && t == Put(s, w, Loaded(pid, now, s.db.proposals[pid]))
  {
    t := Apply(C, s, Load(w));
    Quiet(s, Load(w), t);
  }

  lemma DoScreen(s: State, w: WorkerId, pid: PropId, now: int, row: Proposal) returns (t: State)
    requires Reached(s) && w in s.workers && s.workers[w] == Loaded(pid, now, row)
    requires P.LocalGates(C.settings, row, s.control, now, false)
    ensures Reached(t) && t == Put(s, w, Screened(pid, now, row))
  {
    t := Apply(C, s, Screen(w));
    Quiet(s, Screen(w), t);
  }

  lemma DoRevalidate(s: State, w: WorkerId, pid: PropId, now: int, row: Proposal) returns (t: State)
    requires Reached(s) && w in s.workers && s.workers[w] == Screened(pid, now, row) && pid < |s.db.proposals|
    ensures Reached(t) && t == Put(s, w, Cleared(pid, now, row, s.db.proposals[pid], CLEAR))
  {
    assert P.RiskGates(row, CLEAR);
    t := Apply(C, s, Revalidate(w, Some(CLEAR)));
    Quiet(s, Revalidate(w, Some(CLEAR)), t);
  }

  lemma DoSend(s: State, w: WorkerId, pid: PropId, now: int, row: Proposal) returns (t: State)
    requires Reached(s) && w in s.workers && s.workers[w] == Cleared(pid, now, row, row, CLEAR)
    requires pid < |s.db.proposals| && row == s.db.proposals[pid] && Executable(row.status) && now < row.expiresAt
    requires !HasSent(s.db.attempts, pid) && !s.control.Halted()
    ensures Reached(t)
    ensures var a := Attempt(pid, Highest(s.db.attempts, pid) + 1, true, Some(now), Pending, false, None, row.ticker, row.Signed(), 0);
            t == Put(s.(db := s.db.(attempts := s.db.attempts + [a], proposals := s.db.proposals[pid := row.Moved(Executing)])),
                     w, Committed(|s.db.attempts|))
  {
    t := Apply(C, s, SendTransaction(w));
    Quiet(s, SendTransaction(w), t);
  }

  /** An idle worker takes an approved proposal through preflight. */
  lemma ClearBy(s: State, w: WorkerId, pid: PropId, v: nat) returns (t: State)
    requires Reached(s) && w !in s.workers && s.control == P.Control(false, false) && s.clock < 1000
    requires pid < |s.db.proposals| && s.db.proposals[pid] == Row(Approved, v) && !HasSent(s.db.attempts, pid)
    ensures Reached(t)
    ensures t == s.(workers := s.workers[w := Cleared(pid, s.clock, Row(Approved, v), Row(Approved, v), CLEAR)])
  {
    hide Reached, HasSent;
    var row := Row(Approved, v);
    var a := DoBegin(s, w, pid);
    var b := DoLoad(a, w, pid, s.clock);
    var d := DoScreen(b, w, pid, s.clock, row);
    t := DoRevalidate(d, w, pid, s.clock, row);
    assert t.workers == s.workers[w := Cleared(pid, s.clock, row, row, CLEAR)];
  }

  /** And on to the committed claim. */
  lemma ClaimBy(s: State, w: WorkerId, pid: PropId, v: nat) returns (t: State)
    requires Reached(s) && w !in s.workers && s.control == P.Control(false, false) && s.clock < 1000
    requires pid < |s.db.proposals| && s.db.proposals[pid] == Row(Approved, v) && !HasSent(s.db.attempts, pid)
    ensures Reached(t)
    ensures t == s.(db := s.db.(attempts := s.db.attempts + [Sent(pid, Highest(s.db.attempts, pid) + 1, s.clock)],
                                proposals := s.db.proposals[pid := Row(Executing, v + 1)]),
                    workers := s.workers[w := Committed(|s.db.attempts|)])
  {
    hide Reached;
    var row := Row(Approved, v);
    var e := ClearBy(s, w, pid, v);
    t := DoSend(e, w, pid, s.clock, row);
    assert t.workers == s.workers[w := Committed(|s.db.attempts|)];
  }

  lemma DoTransmit(s: State, w: WorkerId, aid: AttId, left: bool) returns (t: State)
    requires Reached(s) && w in s.workers && s.workers[w] == Committed(aid) && Known(s.db, aid) && s.db.attempts[aid].signed != 0
    ensures Reached(t)
    ensures t == Put(s.(transit := if left then s.transit + {aid} else s.transit, posts := s.posts + multiset{aid}), w, Posting(aid))
  {
    t := Apply(C, s, Transmit(w, left));
    Quiet(s, Transmit(w, left), t);
  }

  lemma DoReturn(s: State, w: WorkerId, aid: AttId, event: T.TransportEvent) returns (t: State)
    requires Reached(s) && w in s.workers && s.workers[w] == Posting(aid) && Known(s.db, aid) && Truthful(s, aid, event)
    ensures Reached(t) && t == Put(s, w, Returned(aid, T.Classify(s.db.attempts[aid].signed, event)))
  {
    t := Apply(C, s, Return(w, event));
    Quiet(s, Return(w, event), t);
  }

  lemma DoRecord(s: State, w: WorkerId, aid: AttId, answer: T.Submission) returns (t: State)
    requires Reached(s) && w in s.workers && s.workers[w] == Returned(aid, answer) && Known(s.db, aid)
    ensures Reached(t) && t == Settle(s, w, Recorded(s.db, aid, answer))
  {
    t := Apply(C, s, Record(w));
    Quiet(s, Record(w), t);
  }

  /** The broker makes the order, before the attempt's deadline. */
  lemma DoAccept(s: State, aid: AttId) returns (t: State)
    requires Reached(s) && aid in s.transit && aid < |s.db.attempts| && s.db.attempts[aid].sentAt == Some(s.clock)
    ensures Reached(t) && t == s.(orders := s.orders + [OrderFor(s, aid)], transit := s.transit - {aid})
  {
    t := Apply(C, s, Accept(aid));
    ReachedSound(s);
    forall id: OrderId, a: AttId | Owns(t.orders, id, a) ensures Prompt(C, t, id, a) {
      if id < |s.orders| { assert Owns(s.orders, id, a) && Prompt(C, s, id, a); }
    }
    Extend(s, Accept(aid), t);
  }

  /** One approved proposal, claimed by worker 0 at time 0. */
  lemma FirstClaim() returns (s: State)
    ensures Reached(s)
    ensures s == State(Db([Row(Executing, 3)], [Sent(0, 1, 0)], map[]), [], {}, multiset{},
                       map[0 := Committed(0)], P.Control(false, false), 0)
  {
    hide Reached;
    var a := Start();
    var b := DoCreate(a, Row(Ready, 1));
    assert b.db.proposals == [Row(Ready, 1)];
    var d := DoApprove(b, 0);
    assert d.db.proposals == [Row(Approved, 2)];
    s := ClaimBy(d, 0, 0, 2);
    assert s.db.proposals == [Row(Executing, 3)] && s.db.attempts == [Sent(0, 1, 0)];
  }

  // ---------------------------------------------------------------- cancelling an ambiguous proposal

  /** The broker has made the order, and the client lost the answer. */
  lemma LostAnswer() returns (s: State)
    ensures Reached(s)
    ensures s.db.proposals == [Row(ExecutionAmbiguous, 4)] && |s.db.attempts| == 1 && s.db.attempts[0].proposal == 0
    ensures s.db.attempts[0].sent && s.db.attempts[0].orderId.None?
    ensures s.db.mirrors == map[] && Owns(s.orders, 0, 0) && s.workers == map[]
  {
    hide Reached;
    var a := FirstClaim();
    var b := DoTransmit(a, 0, 0, true);
    var d := DoAccept(b, 0);
    var e := DoReturn(d, 0, 0, T.AfterRequestLine);
    s := DoRecord(e, 0, 0, T.Unknown(T.TransportAmbiguous));
    assert s.db.proposals == [Row(ExecutionAmbiguous, 4)];
  }

  /** The state machine lets an operator cancel an ambiguous proposal. An order that exists, and that the
      broker will show in time, is then mirrored nowhere and reserved by nothing. */
  lemma CancellationOrphans() returns (s: State, step: Step)
    ensures Reached(s) && Enabled(C, s, step) && PageDeepEnough(C, s, step) && Timely(C, Apply(C, s, step))
    ensures step.Cancel? && !Guarded(s, step)
    ensures NoOrphans(s) && !NoOrphans(Apply(C, s, step))
  {
    hide Reached;
    s := LostAnswer();
    step := Cancel(0);
    ReachedStep(s, step);
    assert Owns(Apply(C, s, step).orders, 0, 0) && !Accounted(Apply(C, s, step), 0, 0);
  }

  // ---------------------------------------------------------------- absence recorded for a retracted attempt

  lemma DoFindStranded(s: State, w: WorkerId, aid: AttId) returns (t: State)
    requires Reached(s) && Enabled(C, s, FindStranded(w, aid))
    ensures Reached(t) && t == Put(s, w, Recovering(aid))
  {
    t := Apply(C, s, FindStranded(w, aid));
    Quiet(s, FindStranded(w, aid), t);
  }

  lemma DoMarkAmbiguous(s: State, w: WorkerId, aid: AttId) returns (t: State)
    requires Reached(s) && w in s.workers && s.workers[w] == Recovering(aid) && Known(s.db, aid)
    ensures Reached(t) && t == Settle(s, w, RecordAmbiguous(s.db, aid))
  {
    t := Apply(C, s, MarkAmbiguous(w));
    Quiet(s, MarkAmbiguous(w), t);
  }

  lemma DoReadFacts(s: State, w: WorkerId, aid: AttId) returns (t: State)
    requires Reached(s) && Enabled(C, s, ReadFacts(w, aid))
    ensures Reached(t) && t == Put(s, w, Searching(FactsOf(s.db, aid), s.clock))
  {
    t := Apply(C, s, ReadFacts(w, aid));
    Quiet(s, ReadFacts(w, aid), t);
  }

  lemma DoReadPending(s: State, w: WorkerId, f: Facts, now: int, list: seq<View>) returns (t: State)
    requires Reached(s) && w in s.workers && s.workers[w] == Searching(f, now) && f.orderId.None?
    requires PendingAnswer(s.orders, list)
    ensures Reached(t) && t == Put(s, w, PendingRead(f, now, Indexed(list), true, Since(C, f, s.clock)))
  {
    t := Apply(C, s, ReadPending(w, Answered(list)));
    Quiet(s, ReadPending(w, Answered(list)), t);
  }

  /** No order has finished, so the page is empty and reaches as far back as there is. */
  lemma DoReadHistory(s: State, w: WorkerId, f: Facts, now: int, found: map<OrderId, View>, since: int) returns (t: State)
    requires Reached(s) && w in s.workers && s.workers[w] == PendingRead(f, now, found, true, since)
    requires forall id :: 0 <= id < |s.orders| ==> !Finished(s.orders[id], f.ticker)
    ensures Reached(t) && t == Put(s, w, HistoryRead(f, now, found, true, since))
  {
    t := Apply(C, s, ReadHistory(w, Answered([])));
    Quiet(s, ReadHistory(w, Answered([])), t);
  }

  lemma DoConclude(s: State, w: WorkerId, pc: Pc) returns (t: State)
    requires Reached(s) && w in s.workers && s.workers[w] == pc && pc.HistoryRead?
    ensures Reached(t) && t == Put(s, w, Concluding(pc.f, pc.now, true, Conclusions(C, s, pc)))
  {
    t := Apply(C, s, Conclude(w));
    Quiet(s, Conclude(w), t);
  }

  /** An empty complete search of an unmatched attempt. */
  lemma EmptySearch(s: State, w: WorkerId, f: Facts, now: int) returns (t: State)
    requires Reached(s) && w in s.workers && s.workers[w] == Searching(f, now) && f.orderId.None?
    requires forall id :: 0 <= id < |s.orders| ==> !s.orders[id].readable
    requires f.sentAt.Some? ==> 60 <= now - f.sentAt.value
    ensures Reached(t) && t == Put(s, w, Concluding(f, now, true, OrderNotPlaced))
  {
    hide Reached;
    var a := DoReadPending(s, w, f, now, []);
    var b := DoReadHistory(a, w, f, now, Indexed([]), Since(C, f, s.clock));
    var pc := HistoryRead(f, now, Indexed([]), true, Since(C, f, s.clock));
    t := DoConclude(b, w, pc);
    NotPlacedExactly(Candidates(Indexed([]), f.ticker, pc.since, Until(C, f, now)), f,
                     ClaimedElsewhere(b.db.mirrors, f.attempt), true, C.settle, now);
  }

  /** Worker 1 has found attempt 0 marked sent while worker 0 is still connecting. */
  lemma FoundWhilePosting() returns (s: State)
    ensures Reached(s)
    ensures s == State(Db([Row(Executing, 3)], [Sent(0, 1, 0)], map[]), [], {}, multiset{0},
                       map[0 := Posting(0), 1 := Recovering(0)], P.Control(false, false), 0)
  {
    hide Reached;
    var a := FirstClaim();
    var b := DoFindStranded(a, 1, 0);
    s := DoTransmit(b, 0, 0, false);
    assert s.workers == map[0 := Posting(0), 1 := Recovering(0)];
  }

  /** Worker 1 has found attempt 0 marked sent; meanwhile worker 0 proves it never left. */
  lemma RetractedWhileFound() returns (s: State)
    ensures Reached(s)
    ensures s.db == Db([Row(Approved, 4)], [Sent(0, 1, 0).(sent := false, sentAt := None, outcome := FailedBeforeSend)], map[])
    ensures s.orders == [] && s.transit == {} && s.clock == 0 && s.control == P.Control(false, false)
    ensures s.workers == map[1 := Recovering(0)]
  {
    hide Reached;
    var d := FoundWhilePosting();
    var e := DoReturn(d, 0, 0, T.BeforeRequestLine);
    s := DoRecord(e, 0, 0, T.NotTransmitted);
    assert s.db.proposals == [Row(Approved, 4)];
    assert s.db.attempts == [Sent(0, 1, 0).(sent := false, sentAt := None, outcome := FailedBeforeSend)];
    assert s.workers == map[1 := Recovering(0)];
  }

  /** Worker 0 then claims the proposal again. */
  lemma RetractedUnderRecovery() returns (s: State)
    ensures Reached(s)
    ensures s.db.proposals == [Row(Executing, 5)] && |s.db.attempts| == 2 && s.db.mirrors == map[]
    ensures s.db.attempts[0] == Sent(0, 1, 0).(sent := false, sentAt := None, outcome := FailedBeforeSend)
    ensures s.db.attempts[1] == Sent(0, 2, 0)
    ensures s.orders == [] && s.transit == {} && s.clock == 0
    ensures s.workers == map[0 := Committed(1), 1 := Recovering(0)]
  {
    hide Reached;
    var f := RetractedWhileFound();
    assert f.db.attempts[..0] == [];
    s := ClaimBy(f, 0, 0, 4);
    assert s.db.proposals == [Row(Executing, 5)];
  }

  /** The second attempt's order exists; the first attempt, marked ambiguous late, is being reconciled. */
  lemma LateAmbiguity() returns (s: State)
    ensures Reached(s)
    ensures s.db.proposals == [Row(ExecutionAmbiguous, 6)] && |s.db.attempts| == 2 && s.db.mirrors == map[]
    ensures s.db.attempts[0].proposal == 0 && !s.db.attempts[0].sent && s.db.attempts[0].outcome == Ambiguous
    ensures s.db.attempts[0].orderId.None? && s.db.attempts[0].sentAt.None? && s.db.attempts[1] == Sent(0, 2, 0)
    ensures |s.orders| == 1 && Owns(s.orders, 0, 1) && !s.orders[0].readable
    ensures 1 !in s.workers
  {
    hide Reached;
    var a := RetractedUnderRecovery();
    var b := DoTransmit(a, 0, 1, true);
    var d := DoAccept(b, 1);
    s := DoMarkAmbiguous(d, 1, 0);
    assert s.db.proposals == [Row(ExecutionAmbiguous, 6)];
  }

  /** Worker 1 holds the conclusion that the retracted attempt was never placed. */
  lemma StaleAbsence() returns (s: State, f: Facts)
    ensures Reached(s) && f.attempt == 0
    ensures s.db.proposals == [Row(ExecutionAmbiguous, 6)] && |s.db.attempts| == 2 && s.db.mirrors == map[]
    ensures s.db.attempts[0].proposal == 0 && !s.db.attempts[0].sent && s.db.attempts[0].outcome == Ambiguous
    ensures s.db.attempts[0].orderId.None? && s.db.attempts[1] == Sent(0, 2, 0)
    ensures Owns(s.orders, 0, 1)
    ensures 1 in s.workers && s.workers[1] == Concluding(f, s.clock, true, OrderNotPlaced)
  {
    hide Reached;
    var a := LateAmbiguity();
    var b := DoReadFacts(a, 1, 0);
    f := FactsOf(a.db, 0);
    s := EmptySearch(b, 1, f, a.clock);
  }

  /** An attempt without a send time skips the settle window: absence recorded for the retracted attempt
      fails the proposal while the order of its second attempt exists and is about to be shown. */
  lemma StaleAbsenceOrphans() returns (s: State, step: Step)
    ensures Reached(s) && Enabled(C, s, step) && PageDeepEnough(C, s, step) && Timely(C, Apply(C, s, step))
    ensures step.RecordPass? && s.workers[step.w].result.OrderNotPlaced? && !Guarded(s, step)
    ensures NoOrphans(s) && !NoOrphans(Apply(C, s, step))
  {
    hide Reached;
    var f;
    s, f := StaleAbsence();
    step := RecordPass(1);
    AbsenceRecorded(s, f);
    ReachedStep(s, step);
    assert Owns(Apply(C, s, step).orders, 0, 1) && !Accounted(Apply(C, s, step), 0, 1);
  }

  lemma AbsenceRecorded(s: State, f: Facts)
    requires s.db.proposals == [Row(ExecutionAmbiguous, 6)] && |s.db.attempts| == 2 && f.attempt == 0
    requires s.db.attempts[0].proposal == 0 && s.db.attempts[0].outcome == Ambiguous && s.db.attempts[0].orderId.None?
    requires s.db.attempts[1] == Sent(0, 2, 0) && !s.db.attempts[0].sent
    requires 1 in s.workers && s.workers[1] == Concluding(f, s.clock, true, OrderNotPlaced)
    ensures Enabled(C, s, RecordPass(1)) && !Guarded(s, RecordPass(1)) && PageDeepEnough(C, s, RecordPass(1))
    ensures var t := Apply(C, s, RecordPass(1));
            && t.orders == s.orders && t.clock == s.clock && t.db.mirrors == s.db.mirrors
            && t.db.proposals == [Row(Failed, 7)] && |t.db.attempts| == 2 && t.db.attempts[1] == s.db.attempts[1]
  {
    assert RowChecks(AbsentRow(s.db.attempts[0]));
    assert s.db.attempts[1].sent && s.db.attempts[1].orderId.None?;
  }

  /** One more step from a reached state, whatever it breaks. */
  lemma ReachedStep(s: State, step: Step)
    requires Reached(s) && Enabled(C, s, step)
    requires Apply(C, s, step).orders == s.orders && Apply(C, s, step).clock == s.clock
    ensures NoOrphans(s) && Attributed(s) && Timely(C, Apply(C, s, step))
  {
    hide Reached, Apply, Enabled;
    ReachedSound(s);
    StaysTimely(s, step, Apply(C, s, step));
  }

  // ---------------------------------------------------------------- a match recorded after the flight ended

  lemma DoTick(s: State, to: int) returns (t: State)
    requires Reached(s) && s.clock <= to && s.orders == []
    ensures Reached(t) && t == s.(clock := to)
  {
    t := Apply(C, s, Tick(to));
    Extend(s, Tick(to), t);
  }

  lemma DoLose(s: State, aid: AttId) returns (t: State)
    requires Reached(s) && aid in s.transit
    ensures Reached(t) && t == s.(transit := s.transit - {aid})
  {
    t := Apply(C, s, Lose(aid));
    Quiet(s, Lose(aid), t);
  }

  lemma DoReveal(s: State) returns (t: State)
    requires Reached(s) && |s.orders| == 1
    ensures Reached(t) && t == s.(orders := [s.orders[0].(readable := true)])
  {
    t := Apply(C, s, Reveal(0));
    ReachedSound(s);
    forall id: OrderId, a: AttId | Owns(t.orders, id, a) ensures Prompt(C, t, id, a) {
      assert Owns(s.orders, id, a) && Prompt(C, s, id, a);
    }
    Extend(s, Reveal(0), t);
    assert t.orders == [s.orders[0].(readable := true)];
  }

  lemma DoRecordPass(s: State, w: WorkerId, f: Facts, now: int, result: Conclusion) returns (t: State)
    requires Reached(s) && w in s.workers && s.workers[w] == Concluding(f, now, true, result) && Known(s.db, f.attempt)
    requires result.OrderNotPlaced? && s.db.attempts[f.attempt].sent
    ensures Reached(t) && t == Settle(s, w, RecordNotPlaced(s.db, f.attempt))
  {
    t := Apply(C, s, RecordPass(w));
    Quiet(s, RecordPass(w), t);
  }

  /** The request left and was lost, and so was the answer. */
  lemma LostRequest() returns (s: State)
    ensures Reached(s)
    ensures s == State(Db([Row(ExecutionAmbiguous, 4)], [Sent(0, 1, 0).(outcome := Ambiguous, ambiguous := true)], map[]),
                       [], {}, multiset{0}, map[], P.Control(false, false), 0)
  {
    hide Reached;
    var a := FirstClaim();
    var b := DoTransmit(a, 0, 0, true);
    var d := DoLose(b, 0);
    var e := DoReturn(d, 0, 0, T.AfterRequestLine);
    s := DoRecord(e, 0, 0, T.Unknown(T.TransportAmbiguous));
    assert s.db.proposals == [Row(ExecutionAmbiguous, 4)];
    assert s.db.attempts == [Sent(0, 1, 0).(outcome := Ambiguous, ambiguous := true)];
  }

  /** Two passes hold the facts of one ambiguous attempt whose request was lost. */
  lemma TwoPasses() returns (s: State, f: Facts)
    ensures Reached(s)
    ensures f == Facts(0, "AAPL", 3, Some(0), None) && s.clock == 60 && s.control == P.Control(false, false)
    ensures s.db.proposals == [Row(ExecutionAmbiguous, 4)] && s.db.mirrors == map[]
    ensures s.db.attempts == [Sent(0, 1, 0).(outcome := Ambiguous, ambiguous := true)]
    ensures s.orders == [] && s.transit == {} && s.workers == map[1 := Searching(f, 60), 2 := Searching(f, 60)]
  {
    hide Reached;
    var g := LostRequest();
    var h := DoTick(g, 60);
    var k := DoReadFacts(h, 1, 0);
    s := DoReadFacts(k, 2, 0);
    f := FactsOf(h.db, 0);
    assert s.workers == map[1 := Searching(f, 60), 2 := Searching(f, 60)];
  }

  /** One pass proves absence; a second proposal for the same trade is then approved and claimed. */
  lemma SecondProposal() returns (s: State, f: Facts)
    ensures Reached(s)
    ensures f == Facts(0, "AAPL", 3, Some(0), None) && s.clock == 60
    ensures s.db.proposals == [Row(Failed, 5), Row(Executing, 3)] && s.db.mirrors == map[]
    ensures |s.db.attempts| == 2 && s.db.attempts[1] == Sent(1, 1, 60)
    ensures s.db.attempts[0] == Sent(0, 1, 0).(outcome := ReconciledNotPlaced, passes := 1)
    ensures s.orders == [] && s.transit == {} && s.workers == map[1 := Searching(f, 60), 0 := Committed(1)]
  {
    hide Reached;
    var a;
    a, f := TwoPasses();
    var b := EmptySearch(a, 2, f, 60);
    var d := DoRecordPass(b, 2, f, 60, OrderNotPlaced);
    assert d.db.proposals == [Row(Failed, 5)];
    assert d.db.attempts == [Sent(0, 1, 0).(outcome := ReconciledNotPlaced, passes := 1)];
    var e := DoCreate(d, Row(Ready, 1));
    assert e.db.proposals == [Row(Failed, 5), Row(Ready, 1)];
    var g := DoApprove(e, 1);
    assert g.db.proposals == [Row(Failed, 5), Row(Approved, 2)];
    assert g.workers == map[1 := Searching(f, 60)];
    assert g.db.attempts[..0] == [];
    s := ClaimBy(g, 0, 1, 2);
    assert s.db.proposals == [Row(Failed, 5), Row(Executing, 3)];
  }

  /** The first pass searches only now, and finds the other proposal's order. */
  lemma LateMatch() returns (s: State)
    ensures Reached(s)
    ensures s.db.proposals == [Row(Failed, 5), Row(Executing, 3)] && s.db.mirrors == map[]
    ensures |s.db.attempts| == 2 && s.db.attempts[0].proposal == 0 && s.db.attempts[0].sent && s.db.attempts[0].sentAt.Some?
    ensures |s.orders| == 1 && Owns(s.orders, 0, 1)
    ensures 1 in s.workers && s.workers[1] == Concluding(Facts(0, "AAPL", 3, Some(0), None), 60, true, OrderFound(0, Working))
  {
    hide Reached;
    var a, f := SecondProposal();
    var b := DoTransmit(a, 0, 1, true);
    var d := DoAccept(b, 1);
    var e := DoReveal(d);
    var v := ViewOf(0, e.orders[0]);
    var g := DoReadPending(e, 1, f, 60, [v]);
    var found := Indexed([v]);
    assert found == map[0 := v] by { assert [v][..0] == []; }
    var h := DoReadHistory(g, 1, f, 60, found, Since(C, f, 60));
    var pc := HistoryRead(f, 60, found, true, Since(C, f, 60));
    s := DoConclude(h, 1, pc);
    var cands := Candidates(found, "AAPL", Since(C, f, 60), Until(C, f, 60));
    assert InWindow(v, "AAPL", -900, 900);
    assert cands == map[0 := v];
    assert MatchIds(cands, f, ClaimedElsewhere(h.db.mirrors, 0)) == {0};
    FoundMeans(cands, f, ClaimedElsewhere(h.db.mirrors, 0), true, 60, 60);
  }

  /** A pass that outlived its proposal's flight claims another proposal's order for its own attempt. */
  lemma StaleMatchMisattributes() returns (s: State, step: Step)
    ensures Reached(s) && Enabled(C, s, step) && PageDeepEnough(C, s, step) && Timely(C, Apply(C, s, step))
    ensures step.RecordPass? && s.workers[step.w].result.OrderFound? && !Guarded(s, step)
    ensures Attributed(s) && !Attributed(Apply(C, s, step))
  {
    hide Reached;
    s := LateMatch();
    step := RecordPass(1);
    MatchRecorded(s);
    ReachedStep(s, step);
    assert !Owns(Apply(C, s, step).orders, 0, 0);
  }

  lemma MatchRecorded(s: State)
    requires s.db.proposals == [Row(Failed, 5), Row(Executing, 3)] && |s.db.attempts| == 2
    requires s.db.attempts[0].proposal == 0 && s.db.attempts[0].sent && s.db.attempts[0].sentAt.Some? && s.db.mirrors == map[]
    requires 1 in s.workers && s.workers[1] == Concluding(Facts(0, "AAPL", 3, Some(0), None), 60, true, OrderFound(0, Working))
    ensures Enabled(C, s, RecordPass(1)) && !Guarded(s, RecordPass(1)) && PageDeepEnough(C, s, RecordPass(1))
    ensures var t := Apply(C, s, RecordPass(1));
            t.orders == s.orders && t.clock == s.clock && 0 in t.db.mirrors && t.db.mirrors[0] == 0
  {
    assert RowChecks(FoundRow(s.db.attempts[0], 0, Working));
  }
}
