/** The reconciliation guarantees over whole runs, and exactly when the single transactions keep them. */
module ReconciliationTheorems {
  import opened Wrappers
  import opened Lifecycle
  import opened Ledger
  import opened Matching
  import opened Protocol
  import opened ExecutionSafety
  import opened ReconciliationSafety
  import T = Transmission

  /** A run of the code as it is, with a broker that is prompt. */
  ghost predicate PromptRun(c: Config, states: seq<State>, steps: seq<Step>) {
    && Run(c, states, steps)
    && (forall i :: 0 <= i < |states| ==> Timely(c, states[i]))
  }

  /** A prompt run in which history pages are deep enough and every step passes the checks of Guarded. */
  ghost predicate AssumedRun(c: Config, states: seq<State>, steps: seq<Step>) {
    && PromptRun(c, states, steps)
    && (forall i :: 0 <= i < |steps| ==> PageDeepEnough(c, states[i], steps[i]) && Guarded(states[i], steps[i]))
  }

  lemma InitialSound(c: Config, s: State)
    requires Initial(s)
    ensures Sound(c, s)
  {
  }

  lemma {:induction false} RunSound(c: Config, states: seq<State>, steps: seq<Step>, i: nat)
    requires AssumedRun(c, states, steps) && i < |states|
    ensures Sound(c, states[i])
  {
    if i == 0 { InitialSound(c, states[0]); }
    else {
      RunSound(c, states, steps, i - 1);
      assert Next(c, states[i - 1], steps[i - 1], states[i - 1 + 1]);
      assert PageDeepEnough(c, states[i - 1], steps[i - 1]);
      StepSafe(c, states[i - 1], steps[i - 1], states[i]);
    }
  }

  /** No orphans: every order StockBrain ever created is mirrored against the attempt that created it,
      or its proposal is still EXECUTING or EXECUTION_AMBIGUOUS and so still reserves its exposure. */
  lemma NoOrphanOrders(c: Config, states: seq<State>, steps: seq<Step>, i: nat, id: OrderId, a: AttId)
    requires AssumedRun(c, states, steps) && i < |states| && Owns(states[i].orders, id, a)
    ensures a < |states[i].db.attempts| && states[i].db.attempts[a].proposal < |states[i].db.proposals|
    ensures (id in states[i].db.mirrors && states[i].db.mirrors[id] == a) ||
            InFlight(states[i].db.proposals[states[i].db.attempts[a].proposal].status)
  {
    RunSound(c, states, steps, i);
    assert OwnerOk(states[i], id, a);
    assert Accounted(states[i], id, a);
  }

  /** Correct attribution: a mirrored order was created by the attempt it is mirrored against, and the
      order id an attempt carries is its own. */
  lemma CorrectAttribution(c: Config, states: seq<State>, steps: seq<Step>, i: nat, id: OrderId)
    requires AssumedRun(c, states, steps) && i < |states|
    ensures id in states[i].db.mirrors ==> Owns(states[i].orders, id, states[i].db.mirrors[id])
    ensures forall a: AttId :: a < |states[i].db.attempts| && states[i].db.attempts[a].orderId == Some(id) ==> Owns(states[i].orders, id, a)
  {
    RunSound(c, states, steps, i);
  }

  /** What a search decides about a live attempt is the truth: a match is its own order, and several
      matches never arise. Once both reads have answered past the settle window the search decides: it
      finds the attempt's order exactly when there is one, and concludes absence exactly when there is none. */
  lemma LiveSearchIsTruthful(c: Config, states: seq<State>, steps: seq<Step>, i: nat)
    requires AssumedRun(c, states, steps) && i < |steps| && steps[i].Conclude?
    requires var s, step := states[i], steps[i];
             step.w in s.workers && s.workers[step.w].HistoryRead? && Live(s.db, s.workers[step.w].f.attempt)
    ensures var s, pc := states[i], states[i].workers[steps[i].w];
            var r, a := Conclusions(c, s, pc), pc.f.attempt;
            && (r.OrderFound? ==> Owns(s.orders, r.order, a))
            && !r.MultipleCandidates?
            && (r.OrderNotPlaced? ==> NoOwnOrder(s, a) && pc.ok && Settled(c, pc.f, pc.now))
            && (pc.ok && Settled(c, pc.f, pc.now) ==>
                  && (forall id: OrderId :: Owns(s.orders, id, a) <==> r.OrderFound? && r.order == id)
                  && (r.OrderNotPlaced? <==> NoOwnOrder(s, a)))
  {
    RunSound(c, states, steps, i);
    assert Next(c, states[i], steps[i], states[i + 1]);
    hide Run, PromptRun, AssumedRun, Next;
    LiveConclusion(c, states[i], steps[i].w);
  }

  lemma LiveConclusion(c: Config, s: State, w: WorkerId)
    requires Sound(c, s) && Enabled(c, s, Conclude(w)) && Live(s.db, s.workers[w].f.attempt)
    ensures var pc := s.workers[w];
            var r, a := Conclusions(c, s, pc), pc.f.attempt;
            && (r.OrderFound? ==> Owns(s.orders, r.order, a))
            && !r.MultipleCandidates?
            && (r.OrderNotPlaced? ==> NoOwnOrder(s, a) && pc.ok && Settled(c, pc.f, pc.now))
            && (pc.ok && Settled(c, pc.f, pc.now) ==>
                  && (forall id: OrderId :: Owns(s.orders, id, a) <==> r.OrderFound? && r.order == id)
                  && (r.OrderNotPlaced? <==> NoOwnOrder(s, a)))
  {
    ConcludeEstablishes(c, s, w);
    var pc := s.workers[w];
    HasPc(c, s, w);
    NotPlacedExactly(Candidates(pc.found, pc.f.ticker, pc.since, Until(c, pc.f, pc.now)), pc.f,
                     ClaimedElsewhere(s.db.mirrors, pc.f.attempt), pc.ok, c.settle, pc.now);
    if pc.ok && Settled(c, pc.f, pc.now) {
      forall id: OrderId | Owns(s.orders, id, pc.f.attempt)
        ensures Conclusions(c, s, pc).OrderFound? && Conclusions(c, s, pc).order == id
      {
        OwnOrderIsFound(c, s, pc, id);
      }
      if NoOwnOrder(s, pc.f.attempt) { NothingMatches(c, s, pc); }
    }
  }

  /** A search that saw everything finds the order that is there, and no other. */
  lemma OwnOrderIsFound(c: Config, s: State, pc: Pc, id: OrderId)
    requires Sound(c, s) && pc.HistoryRead? && PcOk(c, s, pc) && Evidence(c, s, pc) && pc.ok && Settled(c, pc.f, pc.now)
    requires Live(s.db, pc.f.attempt) && Owns(s.orders, id, pc.f.attempt)
    ensures Conclusions(c, s, pc).OrderFound? && Conclusions(c, s, pc).order == id
  {
    var cands := Candidates(pc.found, pc.f.ticker, pc.since, Until(c, pc.f, pc.now));
    var claimed := ClaimedElsewhere(s.db.mirrors, pc.f.attempt);
    OwnOrderMatches(c, s, pc, id);
    hide Sound, Evidence;
    forall other | other in MatchIds(cands, pc.f, claimed) ensures other == id {
      OtherIsOwn(c, s, pc, other, id);
    }
    assert MatchIds(cands, pc.f, claimed) == {id};
  }

  lemma OwnOrderMatches(c: Config, s: State, pc: Pc, id: OrderId)
    requires Sound(c, s) && pc.HistoryRead? && PcOk(c, s, pc) && Evidence(c, s, pc) && pc.ok && Settled(c, pc.f, pc.now)
    requires Owns(s.orders, id, pc.f.attempt)
    ensures id in MatchIds(Candidates(pc.found, pc.f.ticker, pc.since, Until(c, pc.f, pc.now)), pc.f,
                           ClaimedElsewhere(s.db.mirrors, pc.f.attempt))
  {
    assert OwnerOk(s, id, pc.f.attempt) && Prompt(c, s, id, pc.f.attempt);
    assert id in pc.found && ViewOk(s.orders, id, pc.found[id]);
  }

  lemma OtherIsOwn(c: Config, s: State, pc: Pc, other: OrderId, id: OrderId)
    requires Sound(c, s) && pc.HistoryRead? && PcOk(c, s, pc) && Live(s.db, pc.f.attempt)
    requires Owns(s.orders, id, pc.f.attempt)
    requires other in MatchIds(Candidates(pc.found, pc.f.ticker, pc.since, Until(c, pc.f, pc.now)), pc.f,
                               ClaimedElsewhere(s.db.mirrors, pc.f.attempt))
    ensures other == id
  {
    MatchIsOwn(c, s, pc.f, pc.found, other);
  }

  lemma NothingMatches(c: Config, s: State, pc: Pc)
    requires Sound(c, s) && pc.HistoryRead? && PcOk(c, s, pc) && Live(s.db, pc.f.attempt) && pc.ok && Settled(c, pc.f, pc.now)
    requires NoOwnOrder(s, pc.f.attempt)
    ensures Conclusions(c, s, pc).OrderNotPlaced?
  {
    var cands := Candidates(pc.found, pc.f.ticker, pc.since, Until(c, pc.f, pc.now));
    var claimed := ClaimedElsewhere(s.db.mirrors, pc.f.attempt);
    forall id | id in cands && Matches(cands[id], pc.f) ensures id in claimed {
      if id !in claimed { MatchIsOwn(c, s, pc.f, pc.found, id); }
    }
    NotPlacedExactly(cands, pc.f, claimed, pc.ok, c.settle, pc.now);
  }

  /** A reservation released on proof of absence stays right, with no check but a prompt broker: once the
      deadline has passed without an order, the attempt never has one. */
  lemma {:induction false} AbsenceLasts(c: Config, states: seq<State>, steps: seq<Step>, i: nat, j: nat, a: AttId)
    requires PromptRun(c, states, steps) && i <= j < |states|
    requires TooLate(c, states[i], a) && states[i].db.attempts[a].sent && NoOwnOrder(states[i], a)
    ensures NoOwnOrder(states[j], a)
    ensures a < |states[j].db.attempts| && (states[j].db.attempts[a].sent ==> TooLate(c, states[j], a))
    decreases j
  {
    hide Next, Initial, Timely;
    if i < j {
      AbsenceLasts(c, states, steps, i, j - 1, a);
      AbsenceStep(c, states, steps, j - 1, a);
    }
  }

  lemma AbsenceStep(c: Config, states: seq<State>, steps: seq<Step>, i: nat, a: AttId)
    requires PromptRun(c, states, steps) && i < |steps|
    requires NoOwnOrder(states[i], a) && a < |states[i].db.attempts|
    requires states[i].db.attempts[a].sent ==> TooLate(c, states[i], a)
    ensures NoOwnOrder(states[i + 1], a)
    ensures a < |states[i + 1].db.attempts| && (states[i + 1].db.attempts[a].sent ==> TooLate(c, states[i + 1], a))
  {
    assert Next(c, states[i], steps[i], states[i + 1]);
    RunKeeps(c, states, steps, i);
    RunKeeps(c, states, steps, i + 1);
    StepKeeps(c, states[i], steps[i]);
    NoOrderAppears(c, states[i], steps[i], a);
  }

  lemma NoOrderAppears(c: Config, s: State, step: Step, a: AttId)
    requires Inv(c, s) && Enabled(c, s, step) && Inv(c, Apply(c, s, step)) && Timely(c, Apply(c, s, step))
    requires StateEvolves(s, Apply(c, s, step), Touched(s, step))
    requires NoOwnOrder(s, a) && a < |s.db.attempts| && (s.db.attempts[a].sent ==> TooLate(c, s, a))
    ensures var s' := Apply(c, s, step);
            NoOwnOrder(s', a) && a < |s'.db.attempts| && (s'.db.attempts[a].sent ==> TooLate(c, s', a))
  {
    var s' := Apply(c, s, step);
    assert AttemptEvolves(s.db.attempts[a], s'.db.attempts[a]);
    NewOrders(c, s, step);
    forall id: OrderId | id < |s'.orders| ensures !Owns(s'.orders, id, a) {
      if id < |s.orders| { assert OrderEvolves(s.orders[id], s'.orders[id]); assert !Owns(s.orders, id, a); }
      assert Owns(s'.orders, id, a) ==> OwnerOk(s', id, a) && Prompt(c, s', id, a);
    }
  }

  lemma NewOrders(c: Config, s: State, step: Step)
    requires Enabled(c, s, step)
    ensures NewOrdersAreNow(s, Apply(c, s, step))
  {
  }

  // ---------------------------------------------------------------- the checks are exact

  /** All that can be told from the ledger, the clock and the pass that is recording. */
  ghost predicate SameLedger(c: Config, s: State, t: State, step: Step) {
    && Sound(c, t) && Enabled(c, t, step) && t.db == s.db && t.clock == s.clock
    && (step.RecordPass? ==> step.w in s.workers && step.w in t.workers && t.workers[step.w] == s.workers[step.w])
  }

  ghost predicate Reconciled(s: State) {
    Attributed(s) && NoOrphans(s)
  }

  /** Whatever the broker holds and the other workers carry, the step leaves no orphan and attributes
      no order wrongly. */
  ghost predicate KeepsReconciled(c: Config, s: State, step: Step) {
    forall t: State :: SameLedger(c, s, t, step) ==> Reconciled(Apply(c, t, step))
  }

  lemma GuardKeepsReconciled(c: Config, s: State, step: Step)
    requires Sound(c, s) && Enabled(c, s, step) && Guarded(s, step) && (step.RecordPass? || step.Cancel?)
    ensures Reconciled(Apply(c, s, step))
  {
    assert Inv(c, s);
    StepKeeps(c, s, step);
    hide Apply, Enabled, Guarded, Sound, Inv, StateEvolves;
    WritingStepCore(c, s, step, Apply(c, s, step));
  }

  lemma GuardSuffices(c: Config, s: State, step: Step)
    requires Sound(c, s) && Enabled(c, s, step) && Guarded(s, step) && (step.RecordPass? || step.Cancel?)
    ensures KeepsReconciled(c, s, step)
  {
    forall t: State | SameLedger(c, s, t, step) ensures Reconciled(Apply(c, t, step)) {
      GuardOfLedger(c, s, t, step);
      hide Sound, Enabled, Guarded, Apply, Reconciled;
      GuardKeepsReconciled(c, t, step);
    }
  }

  lemma GuardOfLedger(c: Config, s: State, t: State, step: Step)
    requires SameLedger(c, s, t, step) && Guarded(s, step) && (step.RecordPass? || step.Cancel?)
    ensures Guarded(t, step)
  {
    hide Sound, Enabled, AbsenceCheck, MatchCheck, Outstanding;
  }

  /** Recording a match keeps every order accounted for and rightly attributed exactly when the attempt's
      proposal is in flight, or the order is already mirrored against it, or the database refuses. */
  lemma MatchRecordedExactly(c: Config, s: State, w: WorkerId)
    requires Sound(c, s) && Enabled(c, s, RecordPass(w)) && s.workers[w].searched && s.workers[w].result.OrderFound?
    ensures Reconciled(Apply(c, s, RecordPass(w))) <==>
              MatchCheck(s.db, s.workers[w].f.attempt, s.workers[w].result.order)
  {
    var a, order := s.workers[w].f.attempt, s.workers[w].result.order;
    if MatchCheck(s.db, a, order) { GuardKeepsReconciled(c, s, RecordPass(w)); }
    else {
      MatchCommits(s.db, a, order, s.workers[w].result.status);
      assert Apply(c, s, RecordPass(w)).db.mirrors[order] == a && Apply(c, s, RecordPass(w)).orders == s.orders;
      NotOwn(s, a, order);
    }
  }

  lemma MatchCommits(db: Db, a: AttId, order: OrderId, status: OrderStatus)
    requires Valid(db) && a < |db.attempts| && db.attempts[a].sent
    ensures Known(db, a) && RecordFound(db, a, order, status).Some?
    ensures order in RecordFound(db, a, order, status).value.mirrors && RecordFound(db, a, order, status).value.mirrors[order] == a
  {
    assert RowChecks(db.attempts[a]);
  }

  /** An order neither mirrored against the attempt nor covered by its flight is not the attempt's. */
  lemma NotOwn(s: State, a: AttId, order: OrderId)
    requires NoOrphans(s) && !InFlightOf(s.db, a) && !(order in s.db.mirrors && s.db.mirrors[order] == a)
    ensures !Owns(s.orders, order, a)
  {
    assert Owns(s.orders, order, a) ==> Accounted(s, order, a);
  }

  /** A transmission without an order id may have an order: the ledger, the clock and the passes about
      other attempts look the same whether it exists or not. */
  lemma HiddenOrder(c: Config, s: State, kept: set<WorkerId>, b: AttId) returns (t: State)
    requires Sound(c, s) && 0 < c.settle && b < |s.db.attempts|
    requires s.db.attempts[b].sent && s.db.attempts[b].orderId.None? && InFlightOf(s.db, b) && NoOwnOrder(s, b)
    requires forall w :: w in kept && w in s.workers ==> s.workers[w].Concluding? && s.workers[w].f.attempt != b
    ensures t.db == s.db && t.clock == s.clock && t.workers == (map w | w in s.workers && w in kept :: s.workers[w])
    ensures Sound(c, t) && Owns(t.orders, |s.orders|, b)
  {
    var row := s.db.attempts[b];
    assert row.sentAt.Some?;
    var order := Order(Some(b), row.ticker, row.signed, true, true, row.sentAt.value, Working, true, true);
    t := s.(orders := s.orders + [order], transit := s.transit - {b}, posts := s.posts[b := 1],
            workers := map w | w in s.workers && w in kept :: s.workers[w]);
    HiddenOrderBroker(c, s, t, b);
    HiddenOrderWorkers(c, s, t, kept, b);
    HiddenOrderSafe(c, s, t, b);
    hide Inv, Timely, Attributed, NoOrphans, Covered, EvidenceOk, Linked;
  }

  ghost predicate OneMoreOrder(s: State, t: State, b: AttId) {
    && t.db == s.db && t.clock == s.clock && t.transit == s.transit - {b} && t.posts == s.posts[b := 1]
    && b < |s.db.attempts| && |t.orders| == |s.orders| + 1 && t.orders[..|s.orders|] == s.orders
    && s.db.attempts[b].sent && s.db.attempts[b].sentAt.Some?
    && t.orders[|s.orders|] == Order(Some(b), s.db.attempts[b].ticker, s.db.attempts[b].signed, true, true,
                                     s.db.attempts[b].sentAt.value, Working, true, true)
  }

  lemma OldOrNew(s: State, t: State, b: AttId, id: OrderId, a: AttId)
    requires OneMoreOrder(s, t, b) && Owns(t.orders, id, a)
    ensures (id == |s.orders| && a == b) || (Owns(s.orders, id, a) && t.orders[id] == s.orders[id])
  {
    if id < |s.orders| { assert t.orders[..|s.orders|][id] == t.orders[id]; }
  }

  lemma HiddenOrderBroker(c: Config, s: State, t: State, b: AttId)
    requires Inv(c, s) && NoOwnOrder(s, b) && OneMoreOrder(s, t, b)
    ensures BrokerOk(t) && PostsOk(t)
  {
    hide WorkersOk, Valid;
    forall id: OrderId, a: AttId | Owns(t.orders, id, a) ensures OwnerOk(t, id, a) {
      OldOrNew(s, t, b, id, a);
      if id < |s.orders| { assert OwnerOk(s, id, a); }
    }
    forall id: OrderId, other: OrderId, a: AttId | Owns(t.orders, id, a) && Owns(t.orders, other, a) ensures id == other {
      OldOrNew(s, t, b, id, a);
      OldOrNew(s, t, b, other, a);
    }
    forall a: AttId | a in t.transit ensures TransitOk(t, a) {
      assert TransitOk(s, a);
      forall id: OrderId | id < |t.orders| ensures !Owns(t.orders, id, a) {
        if Owns(t.orders, id, a) { OldOrNew(s, t, b, id, a); }
      }
    }
    forall id: OrderId | id < |t.orders|
      ensures t.orders[id].createdAt <= t.clock && (t.orders[id].owner.None? ==> !(t.orders[id].byApi && t.orders[id].market))
    {
      if id < |s.orders| { assert t.orders[..|s.orders|][id] == t.orders[id]; }
    }
  }

  lemma HiddenOrderWorkers(c: Config, s: State, t: State, kept: set<WorkerId>, b: AttId)
    requires Sound(c, s) && OneMoreOrder(s, t, b) && t.workers == (map w | w in s.workers && w in kept :: s.workers[w])
    requires forall w :: w in kept && w in s.workers ==> s.workers[w].Concluding? && s.workers[w].f.attempt != b
    ensures WorkersOk(c, t) && EvidenceOk(c, t)
  {
    forall w | w in t.workers ensures PcOk(c, t, t.workers[w]) && Evidence(c, t, t.workers[w]) {
      HasPc(c, s, w);
      assert Evidence(c, s, s.workers[w]);
      var f := s.workers[w].f;
      forall id: OrderId | id < |t.orders| ensures Owns(t.orders, id, f.attempt) <==> Owns(s.orders, id, f.attempt) {
        if id < |s.orders| { assert t.orders[..|s.orders|][id] == t.orders[id]; }
      }
    }
  }

  lemma HiddenOrderSafe(c: Config, s: State, t: State, b: AttId)
    requires Sound(c, s) && 0 < c.settle && OneMoreOrder(s, t, b) && InFlightOf(s.db, b)
    requires forall w :: w in t.workers ==> t.workers[w].Concluding?
    ensures Attributed(t) && NoOrphans(t) && Covered(c, t) && Timely(c, t)
  {
    hide EvidenceOk, Inv;
    forall id: OrderId, a: AttId | Owns(t.orders, id, a) ensures Accounted(t, id, a) && Prompt(c, t, id, a) {
      OldOrNew(s, t, b, id, a);
      if id < |s.orders| { assert Accounted(s, id, a) && Prompt(c, s, id, a); }
    }
    forall id: OrderId, a: AttId | Owns(s.orders, id, a) ensures Owns(t.orders, id, a) {
      assert t.orders[..|s.orders|][id] == t.orders[id];
    }
  }

  /** The same, whether or not the order is there already. */
  lemma MayHaveOrder(c: Config, s: State, kept: set<WorkerId>, b: AttId) returns (t: State, id: OrderId)
    requires Sound(c, s) && 0 < c.settle && b < |s.db.attempts|
    requires s.db.attempts[b].sent && s.db.attempts[b].orderId.None? && InFlightOf(s.db, b)
    requires forall w :: w in kept && w in s.workers ==> s.workers[w].Concluding? && s.workers[w].f.attempt != b
    ensures Sound(c, t) && t.db == s.db && t.clock == s.clock && Owns(t.orders, id, b)
    ensures forall w :: w in kept && w in s.workers ==> w in t.workers && t.workers[w] == s.workers[w]
    ensures !(id in t.db.mirrors && t.db.mirrors[id] == b)
  {
    hide Inv, Timely, Attributed, NoOrphans, Covered, EvidenceOk;
    if NoOwnOrder(s, b) {
      t := HiddenOrder(c, s, kept, b);
      id := |s.orders|;
    } else {
      t := s;
      id :| id < |s.orders| && Owns(s.orders, id, b);
    }
  }

  /** Recording absence leaves no orphan, whatever the broker holds, exactly when the attempt carries its
      mark, or its proposal is not in flight, or the proposal has nothing outstanding. */
  lemma AbsenceRecordedExactly(c: Config, s: State, w: WorkerId)
    requires 0 < c.settle
    requires Sound(c, s) && Enabled(c, s, RecordPass(w)) && s.workers[w].searched && s.workers[w].result.OrderNotPlaced?
    ensures KeepsReconciled(c, s, RecordPass(w)) <==> AbsenceCheck(s.db, s.workers[w].f.attempt)
  {
    var a := s.workers[w].f.attempt;
    if AbsenceCheck(s.db, a) { GuardSuffices(c, s, RecordPass(w)); }
    else {
      var b: AttId :| b < |s.db.attempts| && s.db.attempts[b].proposal == s.db.attempts[a].proposal
                      && s.db.attempts[b].sent && s.db.attempts[b].orderId.None?;
      var t, id := MayHaveOrder(c, s, {w}, b);
      assert SameLedger(c, s, t, RecordPass(w));
      assert RowChecks(s.db.attempts[a]);
      AbsenceReleases(c, t, w, b, id);
    }
  }

  lemma AbsenceReleases(c: Config, t: State, w: WorkerId, b: AttId, id: OrderId)
    requires Enabled(c, t, RecordPass(w)) && t.workers[w].result.OrderNotPlaced? && RowChecks(t.db.attempts[t.workers[w].f.attempt])
    requires var a := t.workers[w].f.attempt;
             !t.db.attempts[a].sent && InFlightOf(t.db, a) && b < |t.db.attempts| && b != a && t.db.attempts[b].proposal == t.db.attempts[a].proposal
    requires Owns(t.orders, id, b) && !(id in t.db.mirrors && t.db.mirrors[id] == b)
    ensures !NoOrphans(Apply(c, t, RecordPass(w)))
  {
    hide Apply, Enabled, RecordNotPlaced, RowChecks;
    var after := Apply(c, t, RecordPass(w));
    RecordPassFrame(c, t, w, after);
    NotPlacedEffect(t.db, t.workers[w].f.attempt);
    assert Owns(after.orders, id, b) && !Accounted(after, id, b);
  }

  lemma NotPlacedEffect(db: Db, aid: AttId)
    requires Known(db, aid) && InFlightOf(db, aid) && RowChecks(db.attempts[aid]) && !db.attempts[aid].sent
    ensures RecordNotPlaced(db, aid).Some?
    ensures var d := RecordNotPlaced(db, aid).value;
            && d.attempts == db.attempts[aid := AbsentRow(db.attempts[aid])] && d.mirrors == db.mirrors
            && |d.proposals| == |db.proposals| && d.proposals[db.attempts[aid].proposal].status == Failed
  {
  }

  /** An operator's cancellation leaves no orphan, whatever the broker holds, exactly when the proposal has
      nothing outstanding. */
  lemma CancelledExactly(c: Config, s: State, pid: PropId)
    requires 0 < c.settle && Sound(c, s) && Enabled(c, s, Cancel(pid))
    ensures KeepsReconciled(c, s, Cancel(pid)) <==> !Outstanding(s.db, pid)
  {
    if !Outstanding(s.db, pid) { GuardSuffices(c, s, Cancel(pid)); }
    else {
      var b: AttId :| b < |s.db.attempts| && s.db.attempts[b].proposal == pid
                      && s.db.attempts[b].sent && s.db.attempts[b].orderId.None?;
      assert Begun(s.db.proposals[pid].status);
      var t, id := MayHaveOrder(c, s, {}, b);
      assert SameLedger(c, s, t, Cancel(pid));
      var after := Apply(c, t, Cancel(pid));
      assert Owns(after.orders, id, b) && !Accounted(after, id, b);
    }
  }

  /** So the checks are the weakest there are: a transaction of a pass or of an operator leaves no orphan
      and no wrong attribution, whatever the broker holds, exactly when it passes its check. */
  lemma ChecksAreExact(c: Config, s: State, step: Step)
    requires 0 < c.settle && Sound(c, s) && Enabled(c, s, step) && (step.RecordPass? || step.Cancel?)
    ensures KeepsReconciled(c, s, step) <==> Guarded(s, step)
  {
    if Guarded(s, step) { GuardSuffices(c, s, step); }
    else if step.Cancel? { CancelledExactly(c, s, step.pid); }
    else if s.workers[step.w].result.OrderNotPlaced? { AbsenceRecordedExactly(c, s, step.w); }
    else {
      MatchRecordedExactly(c, s, step.w);
      assert SameLedger(c, s, s, step);
    }
  }

  // ---------------------------------------------------------------- the transmitting worker needs no check

  /** An attempt whose result is not known keeps its proposal reserving exposure. */
  ghost predicate Reserved(db: Db) {
    forall a: AttId :: a < |db.attempts| && Unknown(db, a) ==> InFlightOf(db, a)
  }

  predicate Unknown(db: Db, a: AttId)
    requires a < |db.attempts|
  {
    db.attempts[a].sent && (db.attempts[a].outcome.Pending? || db.attempts[a].outcome.Ambiguous?)
  }

  /** The answers of the transmitting worker keep the reservation without any condition. */
  lemma AnswersKeepReserved(db: Db, aid: AttId, answer: T.Submission)
    requires Valid(db) && Reserved(db) && aid < |db.attempts| && db.attempts[aid].sent
    ensures var r := Recorded(db, aid, answer); r.Some? ==> Reserved(r.value)
  {
    AnswerEffect(db, aid, answer);
    hide Recorded;
    var r := Recorded(db, aid, answer);
    if r.Some? {
      forall b: AttId | b < |r.value.attempts| && Unknown(r.value, b) ensures InFlightOf(r.value, b) {
        if b != aid {
          assert Unknown(db, b) && InFlightOf(db, b);
          assert db.attempts[b].proposal != db.attempts[aid].proposal;
        }
      }
    }
  }

  lemma AnswerEffect(db: Db, aid: AttId, answer: T.Submission)
    requires Known(db, aid)
    ensures var r := Recorded(db, aid, answer);
            r.Some? ==>
              && |r.value.attempts| == |db.attempts| && |r.value.proposals| == |db.proposals|
              && (forall b :: 0 <= b < |db.attempts| && b != aid ==> r.value.attempts[b] == db.attempts[b])
              && (forall p :: 0 <= p < |db.proposals| && p != db.attempts[aid].proposal ==> r.value.proposals[p] == db.proposals[p])
              && r.value.attempts[aid].proposal == db.attempts[aid].proposal
              && (Unknown(r.value, aid) ==> InFlightOf(r.value, aid))
  {
  }
}
