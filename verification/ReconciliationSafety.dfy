/** What reconciliation concludes is true: no reservation is released while an order nobody mirrors may
    exist, and no order is attributed to an attempt that did not create it. Both rest on how fast the
    broker shows new orders, and on three checks of committed rows that the code does not make. */
module ReconciliationSafety {
  import opened Wrappers
  import opened Lifecycle
  import opened Ledger
  import opened Matching
  import opened Protocol
  import opened ExecutionSafety
  import P = Preflight
  import T = Transmission

  // ---------------------------------------------------------------- what is assumed of the broker

  /** Order `id` of attempt `a` was made, and became readable, within the settle window of the send
      time, and its creation time is inside the search window. */
  ghost predicate Prompt(c: Config, s: State, id: OrderId, a: AttId) {
    Owns(s.orders, id, a) && a < |s.db.attempts| && s.db.attempts[a].sentAt.Some? ==>
      var sentAt := s.db.attempts[a].sentAt.value;
      && s.orders[id].createdAt < sentAt + c.settle
      && s.orders[id].createdAt <= sentAt + c.window
      && (!s.orders[id].readable ==> s.clock < sentAt + c.settle)
  }

  ghost predicate Timely(c: Config, s: State) {
    forall id: OrderId, a: AttId :: Owns(s.orders, id, a) ==> Prompt(c, s, id, a)
  }

  /** The history page a pass reads reaches back to the start of its window. */
  ghost predicate PageDeepEnough(c: Config, s: State, step: Step) {
    step.ReadHistory? && step.reply.Answered? && step.w in s.workers && s.workers[step.w].PendingRead? ==>
      PageReaches(s.orders, step.reply.orders, s.workers[step.w].f.ticker, s.workers[step.w].since)
  }

  // ---------------------------------------------------------------- the checks the code leaves out

  ghost predicate InFlightOf(db: Db, a: AttId) {
    a < |db.attempts| && db.attempts[a].proposal < |db.proposals| && InFlight(db.proposals[db.attempts[a].proposal].status)
  }

  /** The proposal's transmission has no order id on record yet. */
  ghost predicate Outstanding(db: Db, pid: PropId) {
    exists a :: 0 <= a < |db.attempts| && db.attempts[a].proposal == pid && db.attempts[a].sent && db.attempts[a].orderId.None?
  }

  /** Absence may be recorded for an attempt that carries its mark, and for one that lost it unless its
      proposal is in flight with a transmission outstanding. */
  ghost predicate AbsenceCheck(db: Db, a: AttId) {
    a < |db.attempts| ==> db.attempts[a].sent || !InFlightOf(db, a) || !Outstanding(db, db.attempts[a].proposal)
  }

  /** A match may be recorded while the attempt's proposal is in flight, and again for an order already
      mirrored against the attempt. For an attempt without its mark the database refuses by itself. */
  ghost predicate MatchCheck(db: Db, a: AttId, order: OrderId) {
    a < |db.attempts| ==>
      || !db.attempts[a].sent || InFlightOf(db, a)
      || (order in db.mirrors && db.mirrors[order] == a)
  }

  /** The three checks of committed rows that the code does not make. ReconciliationTheorems shows that
      none of them can be weakened. */
  ghost predicate Guarded(s: State, step: Step) {
    match step
    case RecordPass(w) =>
      w in s.workers && s.workers[w].Concluding? && s.workers[w].searched ==>
        var a := s.workers[w].f.attempt;
        && (s.workers[w].result.OrderNotPlaced? ==> AbsenceCheck(s.db, a))
        && (s.workers[w].result.OrderFound? ==> MatchCheck(s.db, a, s.workers[w].result.order))
    case Cancel(pid) => !Outstanding(s.db, pid)
    case _ => true
  }

  // ---------------------------------------------------------------- the invariant

  ghost predicate Attributed(s: State) {
    && (forall o: OrderId :: o in s.db.mirrors ==> Owns(s.orders, o, s.db.mirrors[o]))
    && (forall a: AttId :: 0 <= a < |s.db.attempts| && s.db.attempts[a].orderId.Some? ==>
          Owns(s.orders, s.db.attempts[a].orderId.value, a))
  }

  /** An attempt carries an order id exactly when that order is mirrored against it. */
  ghost predicate Linked(db: Db) {
    && (forall a: AttId :: 0 <= a < |db.attempts| && db.attempts[a].orderId.Some? ==>
          db.attempts[a].orderId.value in db.mirrors && db.mirrors[db.attempts[a].orderId.value] == a)
    && (forall o: OrderId :: o in db.mirrors ==>
          db.mirrors[o] < |db.attempts| && db.attempts[db.mirrors[o]].orderId == Some(o))
  }

  ghost predicate Accounted(s: State, id: OrderId, a: AttId) {
    (id in s.db.mirrors && s.db.mirrors[id] == a) || InFlightOf(s.db, a)
  }

  /** Every order StockBrain created is mirrored against its own attempt, or its proposal still
      reserves its exposure. */
  ghost predicate NoOrphans(s: State) {
    forall id: OrderId, a: AttId :: Owns(s.orders, id, a) ==> Accounted(s, id, a)
  }

  /** It is too late for the attempt to create an order. */
  ghost predicate TooLate(c: Config, s: State, a: AttId) {
    a < |s.db.attempts| && s.db.attempts[a].sentAt.Some? && s.db.attempts[a].sentAt.value + c.settle <= s.clock
  }

  /** An attempt that may still create an order is covered by its proposal, or out of time. */
  ghost predicate Covered(c: Config, s: State) {
    && (forall a: AttId :: a in s.transit ==> InFlightOf(s.db, a) || TooLate(c, s, a))
    && (forall w :: w in s.workers && s.workers[w].Committed? ==> InFlightOf(s.db, s.workers[w].aid) || TooLate(c, s, s.workers[w].aid))
  }

  ghost predicate Settled(c: Config, f: Facts, now: int) {
    f.sentAt.Some? && c.settle <= now - f.sentAt.value
  }

  ghost predicate OwnOrdersSeen(s: State, f: Facts, found: map<OrderId, View>) {
    forall id: OrderId :: Owns(s.orders, id, f.attempt) ==> id in found
  }

  ghost predicate OwnWorkingOrdersSeen(s: State, f: Facts, found: map<OrderId, View>) {
    forall id: OrderId :: Owns(s.orders, id, f.attempt) ==> id in found || !s.orders[id].pending
  }

  ghost predicate NoOwnOrder(s: State, a: AttId) {
    forall id: OrderId :: 0 <= id < |s.orders| ==> !Owns(s.orders, id, a)
  }

  /** What a reconciliation pass has established so far. */
  ghost predicate Evidence(c: Config, s: State, pc: Pc) {
    match pc
    case Searching(f, _) => f.orderId.Some? ==> Owns(s.orders, f.orderId.value, f.attempt)
    case PendingRead(f, now, found, ok, since) =>
      Settled(c, f, now) ==> since == f.sentAt.value - c.window && (ok ==> OwnWorkingOrdersSeen(s, f, found))
    case HistoryRead(f, now, found, ok, since) =>
      Settled(c, f, now) ==> since == f.sentAt.value - c.window && (ok ==> OwnOrdersSeen(s, f, found))
    case Concluding(f, now, searched, result) =>
      (match result
       case OrderFound(order, _) => Owns(s.orders, order, f.attempt) || (searched && !Live(s.db, f.attempt))
       case OrderNotPlaced => searched && (f.sentAt.Some? ==> Settled(c, f, now) && NoOwnOrder(s, f.attempt))
       case _ => true)
    case _ => true
  }

  ghost predicate EvidenceOk(c: Config, s: State) {
    forall w :: w in s.workers ==> Evidence(c, s, s.workers[w])
  }

  ghost predicate Safe(c: Config, s: State) {
    Attributed(s) && Linked(s.db) && NoOrphans(s) && Covered(c, s) && EvidenceOk(c, s)
  }

  ghost predicate Sound(c: Config, s: State) {
    Inv(c, s) && Safe(c, s) && Timely(c, s)
  }

  // ---------------------------------------------------------------- evidence lasts

  /** An order of an attempt that appears now would have to be too late for the settle window. */
  lemma NoLateOrder(c: Config, s: State, s': State, touched: set<AttId>, f: Facts, now: int, id: OrderId)
    requires Inv(c, s) && Inv(c, s') && StateEvolves(s, s', touched) && Timely(c, s')
    requires FactsOk(s, f) && now <= s.clock && Settled(c, f, now)
    requires Owns(s'.orders, id, f.attempt)
    requires id >= |s.orders| ==> s'.orders[id].createdAt == s.clock
    ensures id < |s.orders| && Owns(s.orders, id, f.attempt)
  {
    assert OwnerOk(s', id, f.attempt);
    assert Prompt(c, s', id, f.attempt);
    assert AttemptEvolves(s.db.attempts[f.attempt], s'.db.attempts[f.attempt]);
    if id < |s.orders| { assert OrderEvolves(s.orders[id], s'.orders[id]); }
  }

  ghost predicate NewOrdersAreNow(s: State, s': State) {
    forall id: OrderId :: |s.orders| <= id < |s'.orders| && s'.orders[id].owner.Some? ==> s'.orders[id].createdAt == s.clock
  }

  lemma EvidenceStable(c: Config, s: State, s': State, touched: set<AttId>, pc: Pc)
    requires Inv(c, s) && Inv(c, s') && StateEvolves(s, s', touched) && Timely(c, s') && NewOrdersAreNow(s, s')
    requires PcOk(c, s, pc) && Evidence(c, s, pc)
    ensures Evidence(c, s', pc)
  {
    match pc {
      case Searching(f, _) =>
        if f.orderId.Some? { assert OrderEvolves(s.orders[f.orderId.value], s'.orders[f.orderId.value]); }
      case PendingRead(f, now, found, ok, _) =>
        if Settled(c, f, now) && ok {
          forall id: OrderId | Owns(s'.orders, id, f.attempt) ensures id in found || !s'.orders[id].pending {
            NoLateOrder(c, s, s', touched, f, now, id);
            assert OrderEvolves(s.orders[id], s'.orders[id]);
          }
        }
      case HistoryRead(f, now, found, ok, _) =>
        if Settled(c, f, now) && ok {
          forall id: OrderId | Owns(s'.orders, id, f.attempt) ensures id in found {
            NoLateOrder(c, s, s', touched, f, now, id);
          }
        }
      case Concluding(f, now, _, result) =>
        match result {
          case OrderFound(order, _) =>
            if Owns(s.orders, order, f.attempt) { assert OrderEvolves(s.orders[order], s'.orders[order]); }
          case OrderNotPlaced =>
            if f.sentAt.Some? {
              forall id: OrderId | id < |s'.orders| ensures !Owns(s'.orders, id, f.attempt) {
                if Owns(s'.orders, id, f.attempt) {
                  NoLateOrder(c, s, s', touched, f, now, id);
                }
              }
            }
          case _ =>
        }
      case _ =>
    }
  }

  // ---------------------------------------------------------------- a pass establishes its evidence

  /** Two in-flight proposals never share a listing, and a proposal has one sent attempt: an order that
      fits a live attempt and is not mirrored elsewhere is the attempt's own. */
  lemma MatchIsOwn(c: Config, s: State, f: Facts, found: map<OrderId, View>, id: OrderId)
    requires Inv(c, s) && Attributed(s) && NoOrphans(s)
    requires FactsOk(s, f) && FoundOk(s, found) && Live(s.db, f.attempt)
    requires id in found && Matches(found[id], f) && id !in ClaimedElsewhere(s.db.mirrors, f.attempt)
    ensures Owns(s.orders, id, f.attempt)
  {
    assert ViewOk(s.orders, id, found[id]);
    assert s.orders[id].owner.Some?;
    var b := s.orders[id].owner.value;
    assert Owns(s.orders, id, b);
    assert OwnerOk(s, id, b);
    var a := f.attempt;
    assert Accounted(s, id, b);
  }

  lemma ConcludeEstablishes(c: Config, s: State, w: WorkerId)
    requires Sound(c, s) && Enabled(c, s, Conclude(w))
    ensures var pc := s.workers[w]; var r := Conclusions(c, s, pc);
            && (r.OrderFound? ==> Owns(s.orders, r.order, pc.f.attempt) || !Live(s.db, pc.f.attempt))
            && (r.OrderNotPlaced? && pc.f.sentAt.Some? ==> Settled(c, pc.f, pc.now) && NoOwnOrder(s, pc.f.attempt))
            && (r.MultipleCandidates? ==> !Live(s.db, pc.f.attempt))
  {
    var pc := s.workers[w];
    var f := pc.f;
    assert PcOk(c, s, pc) && Evidence(c, s, pc);
    var cands := Candidates(pc.found, f.ticker, pc.since, Until(c, f, pc.now));
    var claimed := ClaimedElsewhere(s.db.mirrors, f.attempt);
    var r := Conclusions(c, s, pc);
    match r {
      case OrderFound(order, _) =>
        FoundMeans(cands, f, claimed, pc.ok, c.settle, pc.now);
        if Live(s.db, f.attempt) { MatchIsOwn(c, s, f, pc.found, order); }
      case MultipleCandidates(_) =>
        var x, y := MultipleMeans(cands, f, claimed, pc.ok, c.settle, pc.now);
        if Live(s.db, f.attempt) {
          MatchIsOwn(c, s, f, pc.found, x);
          MatchIsOwn(c, s, f, pc.found, y);
        }
      case OrderNotPlaced =>
        NotPlacedExactly(cands, f, claimed, pc.ok, c.settle, pc.now);
        if f.sentAt.Some? { AbsenceIsReal(c, s, pc, cands, claimed); }
      case _ =>
    }
  }

  /** A complete search past the settle window without a match means there is no order to find. */
  lemma AbsenceIsReal(c: Config, s: State, pc: Pc, cands: map<OrderId, View>, claimed: set<OrderId>)
    requires Inv(c, s) && Attributed(s) && Timely(c, s)
    requires pc.HistoryRead? && PcOk(c, s, pc) && Evidence(c, s, pc) && pc.ok && Settled(c, pc.f, pc.now)
    requires cands == Candidates(pc.found, pc.f.ticker, pc.since, Until(c, pc.f, pc.now))
    requires claimed == ClaimedElsewhere(s.db.mirrors, pc.f.attempt)
    requires forall id :: id in cands && Matches(cands[id], pc.f) ==> id in claimed
    ensures NoOwnOrder(s, pc.f.attempt)
  {
    forall id: OrderId | id < |s.orders| ensures !Owns(s.orders, id, pc.f.attempt) {
      if Owns(s.orders, id, pc.f.attempt) {
        assert OwnerOk(s, id, pc.f.attempt);
        assert Prompt(c, s, id, pc.f.attempt);
        assert id in pc.found && ViewOk(s.orders, id, pc.found[id]);
        assert id in cands && Matches(cands[id], pc.f);
      }
    }
  }

  lemma PendingEstablishes(c: Config, s: State, w: WorkerId, reply: Reply)
    requires Sound(c, s) && Enabled(c, s, ReadPending(w, reply))
    ensures Evidence(c, s, Apply(c, s, ReadPending(w, reply)).workers[w])
  {
    var f, now := s.workers[w].f, s.workers[w].now;
    assert PcOk(c, s, s.workers[w]);
    if Settled(c, f, now) && reply.Answered? {
      IndexedMeans(reply.orders);
      forall id: OrderId | Owns(s.orders, id, f.attempt) ensures id in PendingFound(reply) || !s.orders[id].pending {
        assert OwnerOk(s, id, f.attempt);
        assert Prompt(c, s, id, f.attempt);
        assert s.orders[id].pending ==> ViewOf(id, s.orders[id]) in reply.orders;
      }
    }
  }

  lemma HistoryEstablishes(c: Config, s: State, w: WorkerId, reply: Reply)
    requires Sound(c, s) && Enabled(c, s, ReadHistory(w, reply)) && PageDeepEnough(c, s, ReadHistory(w, reply))
    ensures Evidence(c, s, Apply(c, s, ReadHistory(w, reply)).workers[w])
  {
    var pc := s.workers[w];
    var f := pc.f;
    assert PcOk(c, s, pc) && Evidence(c, s, pc);
    if Settled(c, f, pc.now) && pc.ok && reply.Answered? {
      MergedMeans(pc.found, reply.orders);
      forall id: OrderId | Owns(s.orders, id, f.attempt) ensures id in AllFound(pc.found, reply) {
        assert OwnerOk(s, id, f.attempt);
        assert Prompt(c, s, id, f.attempt);
        if id !in pc.found {
          assert Finished(s.orders[id], f.ticker);
          assert ViewOf(id, s.orders[id]) in reply.orders;
        }
      }
    }
  }

  // ---------------------------------------------------------------- steps that leave the ledger alone

  lemma EvidenceMoves(c: Config, s: State, s': State, touched: set<AttId>, w: WorkerId)
    requires Inv(c, s) && Inv(c, s') && StateEvolves(s, s', touched) && Timely(c, s') && NewOrdersAreNow(s, s')
    requires EvidenceOk(c, s)
    requires forall v :: v in s'.workers && v != w ==> v in s.workers && s'.workers[v] == s.workers[v]
    requires w in s'.workers ==> Evidence(c, s', s'.workers[w])
    ensures EvidenceOk(c, s')
  {
    forall v | v in s'.workers && v != w ensures Evidence(c, s', s'.workers[v]) {
      assert PcOk(c, s, s.workers[v]);
      EvidenceStable(c, s, s', touched, s.workers[v]);
    }
  }

  lemma EvidenceStays(c: Config, s: State, s': State)
    requires Inv(c, s) && Inv(c, s') && StateEvolves(s, s', {}) && Timely(c, s') && NewOrdersAreNow(s, s')
    requires EvidenceOk(c, s) && s'.workers == s.workers
    ensures EvidenceOk(c, s')
  {
    forall v | v in s'.workers ensures Evidence(c, s', s'.workers[v]) {
      assert PcOk(c, s, s.workers[v]);
      EvidenceStable(c, s, s', {}, s.workers[v]);
    }
  }

  ghost predicate SharedStep(step: Step) {
    JobStep(step) || PassStep(step) || step.Return?
  }

  lemma LookupEstablishes(c: Config, s: State, w: WorkerId, result: Conclusion)
    requires Sound(c, s) && Enabled(c, s, Lookup(w, result))
    ensures Evidence(c, Apply(c, s, Lookup(w, result)), Apply(c, s, Lookup(w, result)).workers[w])
  {
    assert Evidence(c, s, s.workers[w]);
  }

  lemma FactsEstablish(c: Config, s: State, w: WorkerId, aid: AttId)
    requires Sound(c, s) && Enabled(c, s, ReadFacts(w, aid))
    ensures Evidence(c, Apply(c, s, ReadFacts(w, aid)), Apply(c, s, ReadFacts(w, aid)).workers[w])
  {
  }

  lemma ConclusionEvidence(c: Config, s: State, w: WorkerId)
    requires Sound(c, s) && Enabled(c, s, Conclude(w))
    ensures Evidence(c, Apply(c, s, Conclude(w)), Apply(c, s, Conclude(w)).workers[w])
  {
    ConcludeEstablishes(c, s, w);
  }

  /** The other steps leave the worker with nothing concluded. */
  lemma NoEvidenceNeeded(c: Config, s: State, step: Step)
    requires Enabled(c, s, step) && (JobStep(step) || step.Return? || step.FindStranded?)
    ensures Evidence(c, Apply(c, s, step), Apply(c, s, step).workers[step.w])
  {
  }

  lemma SearchEvidence(c: Config, s: State, step: Step)
    requires Sound(c, s) && PageDeepEnough(c, s, step) && Enabled(c, s, step)
    requires step.ReadPending? || step.ReadHistory? || step.Conclude?
    ensures Evidence(c, Apply(c, s, step), Apply(c, s, step).workers[step.w])
  {
    hide Sound;
    match step {
      case ReadPending(w, reply) => PendingEstablishes(c, s, w, reply);
      case ReadHistory(w, reply) => HistoryEstablishes(c, s, w, reply);
      case Conclude(w) => ConclusionEvidence(c, s, w);
    }
  }

  lemma NewEvidence(c: Config, s: State, step: Step)
    requires Sound(c, s) && PageDeepEnough(c, s, step) && Enabled(c, s, step) && SharedStep(step)
    ensures Evidence(c, Apply(c, s, step), Apply(c, s, step).workers[step.w])
  {
    hide Sound, Evidence, PageDeepEnough;
    if step.ReadPending? || step.ReadHistory? || step.Conclude? { SearchEvidence(c, s, step); }
    else if step.Lookup? { LookupEstablishes(c, s, step.w, step.result); }
    else if step.ReadFacts? { FactsEstablish(c, s, step.w, step.aid); }
    else { NoEvidenceNeeded(c, s, step); }
  }

  lemma SharedStepFrame(c: Config, s: State, step: Step)
    requires Enabled(c, s, step) && SharedStep(step)
    ensures var s' := Apply(c, s, step);
            SameShared(s, s') && s'.workers == s.workers[step.w := s'.workers[step.w]] && !s'.workers[step.w].Committed?
  {
    hide Conclusions, FactsOf, PendingFound, AllFound, PendingAnswer, HistoryAnswer, Since, Recorded,
      Claim, RecordRefusal, RecordConclusion, RecordAmbiguous, P.LocalGates, P.RiskGates, P.Transient, T.Classify;
  }

  lemma WorkerStepSafe(c: Config, s: State, step: Step)
    requires Sound(c, s) && Enabled(c, s, step) && PageDeepEnough(c, s, step) && SharedStep(step)
    requires Inv(c, Apply(c, s, step)) && StateEvolves(s, Apply(c, s, step), {}) && Timely(c, Apply(c, s, step))
    ensures Safe(c, Apply(c, s, step))
  {
    hide Apply, Enabled, Evidence, PageDeepEnough;
    var s' := Apply(c, s, step);
    SharedStepFrame(c, s, step);
    NewEvidence(c, s, step);
    EvidenceMoves(c, s, s', {}, step.w);
  }

  lemma AcceptSafe(c: Config, s: State, aid: AttId)
    requires Inv(c, s) && Safe(c, s) && Enabled(c, s, Accept(aid)) && Timely(c, s)
    requires Inv(c, Apply(c, s, Accept(aid))) && Timely(c, Apply(c, s, Accept(aid)))
    ensures NoOrphans(Apply(c, s, Accept(aid)))
  {
    var s' := Apply(c, s, Accept(aid));
    forall id: OrderId, a: AttId | Owns(s'.orders, id, a) ensures Accounted(s', id, a) {
      if id < |s.orders| {
        assert Owns(s.orders, id, a);
      } else {
        assert a == aid;
        assert Prompt(c, s', id, a);
        assert OwnerOk(s', id, a);
      }
    }
  }

  lemma OutsideStepSafe(c: Config, s: State, step: Step)
    requires Sound(c, s) && Enabled(c, s, step) && PageDeepEnough(c, s, step) && OutsideStep(step)
    requires Inv(c, Apply(c, s, step)) && StateEvolves(s, Apply(c, s, step), {}) && Timely(c, Apply(c, s, step))
    ensures Safe(c, Apply(c, s, step))
  {
    hide Apply, Enabled, PageDeepEnough, Inv, Timely, StateEvolves, NewOrdersAreNow, EvidenceOk, Attributed, NoOrphans, Covered;
    var s' := Apply(c, s, step);
    OutsideFrame(c, s, step);
    if step.Accept? { AcceptSafe(c, s, step.aid); }
    OutsideCore(c, s, s', step.Accept?);
    EvidenceStays(c, s, s');
  }

  /** The outside world changes neither ledger nor workers; only Accept makes an order of ours. */
  lemma OutsideFrame(c: Config, s: State, step: Step)
    requires Enabled(c, s, step) && OutsideStep(step)
    ensures var s' := Apply(c, s, step);
            && s'.db == s.db && s'.workers == s.workers && s'.transit <= s.transit && NewOrdersAreNow(s, s')
            && (!step.Accept? ==> forall id: OrderId, a: AttId :: Owns(s'.orders, id, a) ==> Owns(s.orders, id, a))
  {
  }

  lemma OutsideCore(c: Config, s: State, s': State, accepted: bool)
    requires Sound(c, s) && StateEvolves(s, s', {})
    requires s'.db == s.db && s'.workers == s.workers && s'.transit <= s.transit
    requires if accepted then NoOrphans(s')
             else forall id: OrderId, a: AttId :: Owns(s'.orders, id, a) ==> Owns(s.orders, id, a)
    ensures Attributed(s') && NoOrphans(s') && Covered(c, s')
  {
    hide EvidenceOk, Inv, Timely;
    if !accepted {
      forall id: OrderId, a: AttId | Owns(s'.orders, id, a) ensures Accounted(s', id, a) {
        assert Accounted(s, id, a);
      }
    }
    forall o: OrderId, a: AttId | Owns(s.orders, o, a) ensures Owns(s'.orders, o, a) {
      assert OrderEvolves(s.orders[o], s'.orders[o]);
    }
  }

  // ---------------------------------------------------------------- ledger steps

  /** Nothing leaves flight. */
  ghost predicate FlightsKept(d: Db, d': Db) {
    forall p :: 0 <= p < |d.proposals| && InFlight(d.proposals[p].status) ==>
      p < |d'.proposals| && InFlight(d'.proposals[p].status)
  }

  /** Nothing but the proposal of `a` leaves flight. */
  ghost predicate OnlyLands(d: Db, d': Db, a: AttId) {
    && a < |d.attempts|
    && forall p :: 0 <= p < |d.proposals| && InFlight(d.proposals[p].status) && p != d.attempts[a].proposal ==>
         p < |d'.proposals| && InFlight(d'.proposals[p].status)
  }

  /** The mirror only gains true rows. */
  ghost predicate MirrorsTrue(s: State, d': Db) {
    && (forall o: OrderId :: o in s.db.mirrors ==> o in d'.mirrors)
    && (forall o: OrderId :: o in d'.mirrors ==> Owns(s.orders, o, d'.mirrors[o]))
    && (forall a: AttId :: 0 <= a < |d'.attempts| && d'.attempts[a].orderId.Some? ==> Owns(s.orders, d'.attempts[a].orderId.value, a))
  }

  ghost predicate SameBroker(s: State, s': State) {
    s'.orders == s.orders && s'.transit == s.transit && s'.clock == s.clock
  }

  ghost predicate NoNewCommitted(s: State, s': State) {
    forall w :: w in s'.workers && s'.workers[w].Committed? ==> w in s.workers && s'.workers[w] == s.workers[w]
  }

  lemma KeptFlight(c: Config, s: State, s': State, touched: set<AttId>, a: AttId)
    requires Inv(c, s) && StateEvolves(s, s', touched) && FlightsKept(s.db, s'.db) && InFlightOf(s.db, a)
    ensures InFlightOf(s'.db, a)
  {
    assert AttemptEvolves(s.db.attempts[a], s'.db.attempts[a]);
  }

  lemma KeptLate(c: Config, s: State, s': State, touched: set<AttId>, a: AttId)
    requires StateEvolves(s, s', touched) && TooLate(c, s, a) && a < |s'.db.attempts| && s'.db.attempts[a].sent
    ensures TooLate(c, s', a)
  {
    assert AttemptEvolves(s.db.attempts[a], s'.db.attempts[a]);
  }

  /** A transaction under which every flight goes on. */
  lemma FlightSafe(c: Config, s: State, s': State)
    requires Inv(c, s) && Inv(c, s') && StateEvolves(s, s', {}) && SameBroker(s, s') && NoNewCommitted(s, s')
    requires Attributed(s) && NoOrphans(s) && Covered(c, s)
    requires FlightsKept(s.db, s'.db) && MirrorsTrue(s, s'.db)
    ensures Attributed(s') && NoOrphans(s') && Covered(c, s')
  {
    forall id: OrderId, a: AttId | Owns(s'.orders, id, a) ensures Accounted(s', id, a) {
      assert Accounted(s, id, a);
      if InFlightOf(s.db, a) { KeptFlight(c, s, s', {}, a); }
      else { assert Owns(s.orders, id, s'.db.mirrors[id]); }
    }
    forall a: AttId | a in s'.transit ensures InFlightOf(s'.db, a) || TooLate(c, s', a) {
      assert TransitOk(s', a);
      if InFlightOf(s.db, a) { KeptFlight(c, s, s', {}, a); } else { KeptLate(c, s, s', {}, a); }
    }
    forall w | w in s'.workers && s'.workers[w].Committed?
      ensures InFlightOf(s'.db, s'.workers[w].aid) || TooLate(c, s', s'.workers[w].aid)
    {
      assert PcOk(c, s', s'.workers[w]);
      var a := s'.workers[w].aid;
      if InFlightOf(s.db, a) { KeptFlight(c, s, s', {}, a); } else { KeptLate(c, s, s', {}, a); }
    }
  }

  /** Why the proposal of `a` may land: every order of `a` is mirrored as its own, and `a` cannot create
      another one. */
  ghost predicate MayLand(c: Config, s: State, s': State, a: AttId) {
    && a < |s.db.attempts| && s.db.attempts[a].sent
    && (forall id: OrderId :: Owns(s.orders, id, a) ==> id in s'.db.mirrors && s'.db.mirrors[id] == a)
    && (a in s.transit ==> TooLate(c, s', a))
    && (forall w :: w in s'.workers && s'.workers[w] == Committed(a) ==> TooLate(c, s', a))
  }

  lemma LandingSafe(c: Config, s: State, s': State, touched: set<AttId>, a: AttId)
    requires Inv(c, s) && Inv(c, s') && StateEvolves(s, s', touched) && SameBroker(s, s') && NoNewCommitted(s, s')
    requires Attributed(s) && NoOrphans(s) && Covered(c, s)
    requires OnlyLands(s.db, s'.db, a) && MirrorsTrue(s, s'.db) && MayLand(c, s, s', a)
    ensures Attributed(s') && NoOrphans(s') && Covered(c, s')
  {
    forall b: AttId | b != a && b < |s.db.attempts| && s.db.attempts[b].sent && InFlightOf(s.db, b) ensures InFlightOf(s'.db, b) {
      assert s.db.attempts[b].proposal != s.db.attempts[a].proposal;
      assert AttemptEvolves(s.db.attempts[b], s'.db.attempts[b]);
    }
    forall id: OrderId, b: AttId | Owns(s'.orders, id, b) ensures Accounted(s', id, b) {
      assert OwnerOk(s, id, b);
      assert Accounted(s, id, b);
      if b != a && !InFlightOf(s.db, b) { assert Owns(s.orders, id, s'.db.mirrors[id]); }
    }
    forall b: AttId | b in s'.transit ensures InFlightOf(s'.db, b) || TooLate(c, s', b) {
      assert TransitOk(s, b) && TransitOk(s', b);
      if b != a && !InFlightOf(s.db, b) { KeptLate(c, s, s', touched, b); }
    }
    forall w | w in s'.workers && s'.workers[w].Committed?
      ensures InFlightOf(s'.db, s'.workers[w].aid) || TooLate(c, s', s'.workers[w].aid)
    {
      assert PcOk(c, s, s.workers[w]) && PcOk(c, s', s'.workers[w]);
      var b := s'.workers[w].aid;
      if b != a && !InFlightOf(s.db, b) { KeptLate(c, s, s', touched, b); }
    }
  }

  /** The holder of the attempt records an answer and leaves. */
  lemma OwnLandingSafe(c: Config, s: State, w: WorkerId, s': State, touched: set<AttId>, aid: AttId)
    requires Inv(c, s) && Inv(c, s') && StateEvolves(s, s', touched) && SameBroker(s, s')
    requires Attributed(s) && NoOrphans(s) && Covered(c, s)
    requires w in s.workers && s'.workers == s.workers - {w} && Holds(s.workers[w]) == {aid}
    requires aid < |s.db.attempts| && s.db.attempts[aid].sent && aid !in s.transit
    requires OnlyLands(s.db, s'.db, aid) && MirrorsTrue(s, s'.db)
    requires forall id: OrderId :: Owns(s.orders, id, aid) ==> id in s'.db.mirrors && s'.db.mirrors[id] == aid
    ensures Attributed(s') && NoOrphans(s') && Covered(c, s')
  {
    assert forall v :: v in s'.workers ==> aid !in Holds(s.workers[v]);
    LandingSafe(c, s, s', touched, aid);
  }

  /** What recording an answer does to the ledger, as far as safety is concerned. */
  lemma AnswerLands(db: Db, aid: AttId, answer: T.Submission)
    requires Known(db, aid)
    ensures var r := Recorded(db, aid, answer);
            r.Some? ==>
              && OnlyLands(db, r.value, aid)
              && (answer.Unknown? ==> FlightsKept(db, r.value))
              && r.value.mirrors == (if answer.Acknowledged? then db.mirrors[answer.order := aid] else db.mirrors)
              && |r.value.attempts| == |db.attempts|
              && (forall a :: 0 <= a < |db.attempts| && a != aid ==> r.value.attempts[a] == db.attempts[a])
              && r.value.attempts[aid].orderId == (if answer.Acknowledged? then Some(answer.order) else db.attempts[aid].orderId)
  {
  }

  lemma RecordedMirrorsTrue(c: Config, s: State, aid: AttId, answer: T.Submission)
    requires Attributed(s) && Known(s.db, aid) && AnswerOk(s, aid, answer)
    ensures var r := Recorded(s.db, aid, answer); r.Some? ==> MirrorsTrue(s, r.value)
  {
    hide Recorded;
    AnswerLands(s.db, aid, answer);
  }

  lemma RecordSafe(c: Config, s: State, w: WorkerId, s': State)
    requires Sound(c, s) && Enabled(c, s, Record(w)) && s' == Apply(c, s, Record(w))
    requires Inv(c, s') && StateEvolves(s, s', HeldBy(s, w))
    ensures Attributed(s') && NoOrphans(s') && Covered(c, s')
  {
    var aid, answer := s.workers[w].aid, s.workers[w].answer;
    assert PcOk(c, s, s.workers[w]);
    var r := Recorded(s.db, aid, answer);
    if r.Some? {
      RecordedMirrorsTrue(c, s, aid, answer);
      AnswerLands(s.db, aid, answer);
      if answer.Unknown? {
        UnknownIsQuiet(c, s, w, s');
        FlightSafe(c, s, s');
      } else {
        NotInTransit(c, s, aid, answer);
        OwnLandingSafe(c, s, w, s', HeldBy(s, w), aid);
      }
    } else {
      RollbackSafe(c, s, s');
    }
  }

  lemma RollbackSafe(c: Config, s: State, s': State)
    requires Sound(c, s) && SameShared(s, s') && NoNewCommitted(s, s')
    ensures Attributed(s') && NoOrphans(s') && Covered(c, s')
  {
  }

  lemma NotInTransit(c: Config, s: State, aid: AttId, answer: T.Submission)
    requires Inv(c, s) && AnswerOk(s, aid, answer) && !answer.Unknown?
    ensures aid !in s.transit
    ensures answer.Acknowledged? ==> forall id: OrderId :: Owns(s.orders, id, aid) ==> id == answer.order
  {
    assert aid in s.transit ==> TransitOk(s, aid);
  }

  lemma UnknownIsQuiet(c: Config, s: State, w: WorkerId, s': State)
    requires Inv(c, s) && Enabled(c, s, Record(w)) && s' == Apply(c, s, Record(w)) && s.workers[w].answer.Unknown?
    ensures StateEvolves(s, s', {})
  {
    assert PcOk(c, s, s.workers[w]);
    AmbiguousKeepsValid(s.db, s.workers[w].aid);
    LedgerIsQuiet(c, s, s', {});
  }

  // ---------------------------------------------------------------- reconciliation writes

  /** What recording a conclusion does to the ledger, as far as safety is concerned. */
  lemma ConclusionLands(db: Db, aid: AttId, result: Conclusion)
    requires Known(db, aid)
    ensures var r := RecordConclusion(db, aid, result);
            r.Some? ==>
              && OnlyLands(db, r.value, aid)
              && (!result.OrderFound? && !result.OrderNotPlaced? ==> FlightsKept(db, r.value))
              && (result.OrderNotPlaced? && !InFlightOf(db, aid) ==> FlightsKept(db, r.value))
              && (result.OrderFound? ==> db.attempts[aid].sent)
              && r.value.mirrors == (if result.OrderFound? then db.mirrors[result.order := aid] else db.mirrors)
              && |r.value.attempts| == |db.attempts|
              && (forall a :: 0 <= a < |db.attempts| && a != aid ==> r.value.attempts[a] == db.attempts[a])
              && r.value.attempts[aid].orderId == (if result.OrderFound? then Some(result.order) else db.attempts[aid].orderId)
              && r.value.attempts[aid].sentAt == db.attempts[aid].sentAt
  {
  }

  lemma ConcludedMirrorsTrue(c: Config, s: State, aid: AttId, result: Conclusion)
    requires Attributed(s) && Known(s.db, aid)
    requires result.OrderFound? && s.db.attempts[aid].sent ==> Owns(s.orders, result.order, aid)
    ensures var r := RecordConclusion(s.db, aid, result); r.Some? ==> MirrorsTrue(s, r.value)
  {
    hide RecordConclusion;
    ConclusionLands(s.db, aid, result);
  }

  ghost predicate TrueConclusion(c: Config, s: State, a: AttId, result: Conclusion) {
    && a < |s.db.attempts|
    && (result.OrderFound? && s.db.attempts[a].sent ==> Owns(s.orders, result.order, a))
    && (result.OrderNotPlaced? && InFlightOf(s.db, a) ==>
          || (s.db.attempts[a].sent && NoOwnOrder(s, a) && TooLate(c, s, a))
          || !Outstanding(s.db, s.db.attempts[a].proposal))
  }

  /** With the guard, a recorded match is the attempt's own order and a recorded absence is real. */
  lemma GuardedConclusion(c: Config, s: State, w: WorkerId, a: AttId, result: Conclusion)
    requires w in s.workers && s.workers[w].Concluding? && s.workers[w].f.attempt == a && s.workers[w].result == result
    requires Sound(c, s) && Enabled(c, s, RecordPass(w)) && Guarded(s, RecordPass(w))
    ensures TrueConclusion(c, s, a, result)
  {
    assert PcOk(c, s, s.workers[w]) && Evidence(c, s, s.workers[w]);
  }

  lemma FoundMayLand(c: Config, s: State, s': State, a: AttId, order: OrderId)
    requires Inv(c, s) && Owns(s.orders, order, a) && a < |s.db.attempts| && s.db.attempts[a].sent
    requires NoNewCommitted(s, s') && order in s'.db.mirrors && s'.db.mirrors[order] == a
    ensures MayLand(c, s, s', a)
  {
    assert OwnerOk(s, order, a);
    assert a in s.transit ==> TransitOk(s, a);
    forall w | w in s'.workers ensures s'.workers[w] != Committed(a) {
      assert w in s.workers ==> PcOk(c, s, s.workers[w]);
    }
  }

  lemma RecordPassSafe(c: Config, s: State, w: WorkerId, s': State)
    requires Sound(c, s) && Enabled(c, s, RecordPass(w)) && Guarded(s, RecordPass(w)) && s' == Apply(c, s, RecordPass(w))
    requires Inv(c, s') && StateEvolves(s, s', {})
    ensures Attributed(s') && NoOrphans(s') && Covered(c, s')
  {
    hide Apply, Enabled, RecordConclusion, Inv, Guarded, StateEvolves, Timely, EvidenceOk, NoOrphans, Covered,
      MirrorsTrue, OnlyLands, FlightsKept, MayLand, NoNewCommitted, InFlightOf, TooLate, NoOwnOrder, Outstanding, Linked;
    RecordPassFrame(c, s, w, s');
    var aid, result := s.workers[w].f.attempt, s.workers[w].result;
    GuardedConclusion(c, s, w, aid, result);
    var r := RecordConclusion(s.db, aid, result);
    if r.Some? {
      ConcludedMirrorsTrue(c, s, aid, result);
      ConclusionLands(s.db, aid, result);
      if result.OrderFound? {
        FoundMayLand(c, s, s', aid, result.order);
        LandingSafe(c, s, s', {}, aid);
      } else if result.OrderNotPlaced? && InFlightOf(s.db, aid) {
        if Outstanding(s.db, s.db.attempts[aid].proposal) {
          KeptTooLate(c, s, s', aid);
          LandingSafe(c, s, s', {}, aid);
        } else {
          PlacedLandingSafe(c, s, s', aid);
        }
      } else {
        FlightSafe(c, s, s');
      }
    } else {
      RollbackSafe(c, s, s');
    }
  }

  /** A proposal in flight with nothing outstanding may land: its one transmission has its order mirrored. */
  lemma PlacedMayLand(c: Config, s: State, s': State, pid: PropId) returns (b: AttId)
    requires Inv(c, s) && Attributed(s) && Linked(s.db) && NoNewCommitted(s, s') && s'.db.mirrors == s.db.mirrors
    requires pid < |s.db.proposals| && InFlight(s.db.proposals[pid].status) && !Outstanding(s.db, pid)
    ensures b < |s.db.attempts| && s.db.attempts[b].proposal == pid && MayLand(c, s, s', b)
  {
    hide MayLand, WorkersOk, BrokerOk, PostsOk;
    assert HasSent(s.db.attempts, pid);
    b :| 0 <= b < |s.db.attempts| && s.db.attempts[b].proposal == pid && s.db.attempts[b].sent;
    assert s.db.attempts[b].orderId.Some?;
    FoundMayLand(c, s, s', b, s.db.attempts[b].orderId.value);
  }

  lemma PlacedLandingSafe(c: Config, s: State, s': State, a: AttId)
    requires Inv(c, s) && Inv(c, s') && StateEvolves(s, s', {}) && SameBroker(s, s') && NoNewCommitted(s, s')
    requires Attributed(s) && Linked(s.db) && NoOrphans(s) && Covered(c, s)
    requires OnlyLands(s.db, s'.db, a) && MirrorsTrue(s, s'.db) && s'.db.mirrors == s.db.mirrors
    requires InFlightOf(s.db, a) && !Outstanding(s.db, s.db.attempts[a].proposal)
    ensures Attributed(s') && NoOrphans(s') && Covered(c, s')
  {
    hide Inv, StateEvolves, Attributed, Linked, NoOrphans, Covered, MirrorsTrue, MayLand, Outstanding, NoNewCommitted;
    var b := PlacedMayLand(c, s, s', s.db.attempts[a].proposal);
    LandingSafe(c, s, s', {}, b);
  }

  lemma RecordPassFrame(c: Config, s: State, w: WorkerId, s': State)
    requires Enabled(c, s, RecordPass(w)) && s' == Apply(c, s, RecordPass(w))
    ensures SameBroker(s, s') && NoNewCommitted(s, s') && w in s.workers && s.workers[w].Concluding? && Known(s.db, s.workers[w].f.attempt)
    ensures var r := RecordConclusion(s.db, s.workers[w].f.attempt, s.workers[w].result);
            if r.Some? then s'.db == r.value else SameShared(s, s')
  {
    hide RecordConclusion;
  }

  /** The recorder's instant is past the deadline, and recording keeps the attempt's send time. */
  lemma KeptTooLate(c: Config, s: State, s': State, a: AttId)
    requires Inv(c, s) && TooLate(c, s, a) && s.db.attempts[a].sent && NoOwnOrder(s, a)
    requires a < |s'.db.attempts| && s'.db.attempts[a].sentAt == s.db.attempts[a].sentAt && s'.clock == s.clock
    ensures MayLand(c, s, s', a)
  {
  }

  lemma MarkAmbiguousSafe(c: Config, s: State, w: WorkerId, s': State)
    requires Sound(c, s) && Enabled(c, s, MarkAmbiguous(w)) && s' == Apply(c, s, MarkAmbiguous(w))
    requires Inv(c, s') && StateEvolves(s, s', {})
    ensures Attributed(s') && NoOrphans(s') && Covered(c, s')
  {
    AnswerLands(s.db, s.workers[w].aid, T.Unknown(T.TransportAmbiguous));
    RecordedMirrorsTrue(c, s, s.workers[w].aid, T.Unknown(T.TransportAmbiguous));
    if RecordAmbiguous(s.db, s.workers[w].aid).Some? { FlightSafe(c, s, s'); } else { RollbackSafe(c, s, s'); }
  }

  lemma RefuseSafe(c: Config, s: State, w: WorkerId, s': State)
    requires Sound(c, s) && Enabled(c, s, Refuse(w)) && s' == Apply(c, s, Refuse(w))
    requires Inv(c, s') && StateEvolves(s, s', {})
    ensures Attributed(s') && NoOrphans(s') && Covered(c, s')
  {
    FlightSafe(c, s, s');
  }

  lemma SendTransactionSafe(c: Config, s: State, w: WorkerId, s': State)
    requires Sound(c, s) && Enabled(c, s, SendTransaction(w)) && s' == Apply(c, s, SendTransaction(w))
    requires Inv(c, s') && StateEvolves(s, s', {})
    ensures Attributed(s') && NoOrphans(s') && Covered(c, s')
  {
    hide Apply, Enabled, Inv, StateEvolves, EvidenceOk, Timely, FlightsKept, MirrorsTrue, Attributed, NoOrphans, Covered;
    ClaimLands(c, s, w, s');
    if s'.db == s.db { RollbackSafe(c, s, s'); } else { ClaimCovered(c, s, s', w); }
  }

  lemma ClaimLands(c: Config, s: State, w: WorkerId, s': State)
    requires Enabled(c, s, SendTransaction(w)) && s' == Apply(c, s, SendTransaction(w)) && Attributed(s)
    ensures if s'.db == s.db then SameShared(s, s') && NoNewCommitted(s, s') else
              && FlightsKept(s.db, s'.db) && MirrorsTrue(s, s'.db) && SameBroker(s, s')
              && w in s'.workers && s'.workers == s.workers[w := s'.workers[w]]
              && (s'.workers[w].Committed? ==> InFlightOf(s'.db, s'.workers[w].aid))
  {
  }

  /** FlightSafe for the one transaction that also commits a worker, whose own proposal is now in flight. */
  lemma ClaimCovered(c: Config, s: State, s': State, w: WorkerId)
    requires Sound(c, s) && Inv(c, s') && StateEvolves(s, s', {}) && SameBroker(s, s')
    requires FlightsKept(s.db, s'.db) && MirrorsTrue(s, s'.db)
    requires w in s'.workers && s'.workers == s.workers[w := s'.workers[w]]
    requires s'.workers[w].Committed? ==> InFlightOf(s'.db, s'.workers[w].aid)
    ensures Attributed(s') && NoOrphans(s') && Covered(c, s')
  {
    forall id: OrderId, a: AttId | Owns(s'.orders, id, a) ensures Accounted(s', id, a) {
      assert Accounted(s, id, a);
      if InFlightOf(s.db, a) { KeptFlight(c, s, s', {}, a); }
      else { assert Owns(s.orders, id, s'.db.mirrors[id]); }
    }
    forall a: AttId | a in s'.transit ensures InFlightOf(s'.db, a) || TooLate(c, s', a) {
      assert TransitOk(s', a);
      if InFlightOf(s.db, a) { KeptFlight(c, s, s', {}, a); } else { KeptLate(c, s, s', {}, a); }
    }
    forall v | v in s'.workers && s'.workers[v].Committed?
      ensures InFlightOf(s'.db, s'.workers[v].aid) || TooLate(c, s', s'.workers[v].aid)
    {
      assert PcOk(c, s', s'.workers[v]);
      var a := s'.workers[v].aid;
      if v != w { if InFlightOf(s.db, a) { KeptFlight(c, s, s', {}, a); } else { KeptLate(c, s, s', {}, a); } }
    }
  }

  lemma TransmitSafe(c: Config, s: State, w: WorkerId, left: bool, s': State)
    requires Sound(c, s) && Enabled(c, s, Transmit(w, left)) && s' == Apply(c, s, Transmit(w, left))
    requires Inv(c, s')
    ensures Attributed(s') && NoOrphans(s') && Covered(c, s')
  {
    hide Apply, Enabled, Inv, Timely, EvidenceOk;
    TransmitFrame(c, s, w, left);
  }

  lemma ProposalStepSafe(c: Config, s: State, step: Step, s': State)
    requires Sound(c, s) && Enabled(c, s, step) && Guarded(s, step) && ProposalStep(step) && s' == Apply(c, s, step)
    requires Inv(c, s') && StateEvolves(s, s', {})
    ensures Attributed(s') && NoOrphans(s') && Covered(c, s')
  {
    hide Apply, Enabled, Inv, StateEvolves, EvidenceOk, Timely, Attributed, Linked, NoOrphans, Covered, FlightsKept, MirrorsTrue,
      Outstanding, NoNewCommitted, ProposalStep;
    if step.Cancel? { CancelFrame(c, s, step.pid, s'); }
    if step.Cancel? && InFlight(s.db.proposals[step.pid].status) {
      CancelSafe(c, s, step.pid, s');
    } else {
      ProposalStepFrame(c, s, step, s');
      FlightSafe(c, s, s');
    }
  }

  lemma ProposalStepFrame(c: Config, s: State, step: Step, s': State)
    requires Enabled(c, s, step) && ProposalStep(step) && s' == Apply(c, s, step) && Attributed(s)
    requires step.Cancel? ==> !InFlight(s.db.proposals[step.pid].status)
    ensures SameBroker(s, s') && NoNewCommitted(s, s') && FlightsKept(s.db, s'.db) && MirrorsTrue(s, s'.db)
  {
  }

  lemma CancelFrame(c: Config, s: State, pid: PropId, s': State)
    requires Enabled(c, s, Cancel(pid)) && s' == Apply(c, s, Cancel(pid)) && Attributed(s)
    ensures SameBroker(s, s') && NoNewCommitted(s, s') && MirrorsTrue(s, s'.db) && s'.db.mirrors == s.db.mirrors && pid < |s.db.proposals|
    ensures forall b: AttId :: b < |s.db.attempts| && s.db.attempts[b].proposal == pid ==> OnlyLands(s.db, s'.db, b)
  {
  }

  lemma CancelSafe(c: Config, s: State, pid: PropId, s': State)
    requires Sound(c, s) && Enabled(c, s, Cancel(pid)) && !Outstanding(s.db, pid) && s' == Apply(c, s, Cancel(pid))
    requires Inv(c, s') && StateEvolves(s, s', {}) && InFlight(s.db.proposals[pid].status)
    ensures Attributed(s') && NoOrphans(s') && Covered(c, s')
  {
    hide Apply, Enabled, Inv, StateEvolves, EvidenceOk, Timely, Attributed, Linked, NoOrphans, Covered, MirrorsTrue, Outstanding,
      NoNewCommitted, OnlyLands, MayLand;
    CancelFrame(c, s, pid, s');
    var b := PlacedMayLand(c, s, s', pid);
    LandingSafe(c, s, s', {}, b);
  }

  // ---------------------------------------------------------------- order ids and mirrors stay linked

  lemma RelinkKeeps(c: Config, s: State, d: Db, aid: AttId, found: Option<OrderId>)
    requires BrokerOk(s) && Attributed(s) && Linked(s.db) && aid < |s.db.attempts|
    requires found.Some? ==> Owns(s.orders, found.value, aid)
    requires |d.attempts| == |s.db.attempts|
    requires forall a :: 0 <= a < |s.db.attempts| && a != aid ==> d.attempts[a] == s.db.attempts[a]
    requires d.attempts[aid].orderId == if found.Some? then found else s.db.attempts[aid].orderId
    requires d.mirrors == if found.Some? then s.db.mirrors[found.value := aid] else s.db.mirrors
    ensures Linked(d)
  {
  }

  /** New attempts carry no order id. */
  lemma AppendKeepsLinked(db: Db, d: Db)
    requires Linked(db) && d.mirrors == db.mirrors && |db.attempts| <= |d.attempts|
    requires forall a :: 0 <= a < |db.attempts| ==> d.attempts[a] == db.attempts[a]
    requires forall a :: |db.attempts| <= a < |d.attempts| ==> d.attempts[a].orderId.None?
    ensures Linked(d)
  {
  }

  lemma RecordLinked(c: Config, s: State, w: WorkerId, s': State)
    requires Sound(c, s) && Enabled(c, s, Record(w)) && s' == Apply(c, s, Record(w))
    ensures Linked(s'.db)
  {
    hide Recorded, EvidenceOk, Timely, NoOrphans, Covered, Linked, Attributed, BrokerOk, PostsOk, Valid;
    var aid, answer := s.workers[w].aid, s.workers[w].answer;
    HasPc(c, s, w);
    AnswerLands(s.db, aid, answer);
    if Recorded(s.db, aid, answer).Some? {
      RelinkKeeps(c, s, s'.db, aid, if answer.Acknowledged? then Some(answer.order) else None);
    }
  }

  lemma MarkAmbiguousLinked(c: Config, s: State, w: WorkerId, s': State)
    requires Sound(c, s) && Enabled(c, s, MarkAmbiguous(w)) && s' == Apply(c, s, MarkAmbiguous(w))
    ensures Linked(s'.db)
  {
    hide EvidenceOk, Timely, NoOrphans, Covered, Linked, Attributed, BrokerOk, PostsOk, Valid;
    var aid := s.workers[w].aid;
    if RecordAmbiguous(s.db, aid).Some? { RelinkKeeps(c, s, s'.db, aid, None); }
  }

  lemma RecordPassLinked(c: Config, s: State, w: WorkerId, s': State)
    requires Sound(c, s) && Enabled(c, s, RecordPass(w)) && Guarded(s, RecordPass(w)) && s' == Apply(c, s, RecordPass(w))
    ensures Linked(s'.db)
  {
    hide Apply, Enabled, Guarded, RecordConclusion, EvidenceOk, Timely, NoOrphans, Covered, Linked, Attributed, BrokerOk, PostsOk, Valid,
      Outstanding, WorkersOk;
    RecordPassFrame(c, s, w, s');
    var aid, result := s.workers[w].f.attempt, s.workers[w].result;
    GuardedConclusion(c, s, w, aid, result);
    ConclusionLands(s.db, aid, result);
    if RecordConclusion(s.db, aid, result).Some? {
      RelinkKeeps(c, s, s'.db, aid, if result.OrderFound? then Some(result.order) else None);
    }
  }

  lemma InsertLinked(c: Config, s: State, step: Step, s': State)
    requires Linked(s.db) && Enabled(c, s, step) && (step.Refuse? || step.SendTransaction?) && s' == Apply(c, s, step)
    ensures Linked(s'.db)
  {
    hide Linked, HasSent, Highest;
    AppendKeepsLinked(s.db, s'.db);
  }

  /** The other steps write no attempt and no mirror. */
  lemma OtherwiseLinked(c: Config, s: State, step: Step, s': State)
    requires Linked(s.db) && Enabled(c, s, step) && s' == Apply(c, s, step)
    requires !step.Record? && !step.RecordPass? && !step.MarkAmbiguous? && !step.Refuse? && !step.SendTransaction?
    ensures Linked(s'.db)
  {
    hide Linked;
    assert s'.db.attempts == s.db.attempts && s'.db.mirrors == s.db.mirrors;
    AppendKeepsLinked(s.db, s'.db);
  }

  lemma StepLinked(c: Config, s: State, step: Step, s': State)
    requires Sound(c, s) && Enabled(c, s, step) && Guarded(s, step) && s' == Apply(c, s, step)
    ensures Linked(s'.db)
  {
    assert Linked(s.db);
    hide Apply, Enabled, Guarded, Sound, Linked;
    match step {
      case Record(w) => RecordLinked(c, s, w, s');
      case RecordPass(w) => RecordPassLinked(c, s, w, s');
      case MarkAmbiguous(w) => MarkAmbiguousLinked(c, s, w, s');
      case Refuse(w) => InsertLinked(c, s, step, s');
      case SendTransaction(w) => InsertLinked(c, s, step, s');
      case _ => OtherwiseLinked(c, s, step, s');
    }
  }

  // ---------------------------------------------------------------- every step, every run

  ghost predicate WritingStep(step: Step) {
    || step.Record? || step.RecordPass? || step.MarkAmbiguous? || step.Refuse? || step.SendTransaction?
    || step.Transmit? || step.Crash? || ProposalStep(step)
  }

  ghost predicate Core(c: Config, s: State) {
    Attributed(s) && NoOrphans(s) && Covered(c, s)
  }

  lemma JobWriteCore(c: Config, s: State, step: Step, s': State)
    requires Sound(c, s) && Enabled(c, s, step) && s' == Apply(c, s, step)
    requires step.Refuse? || step.SendTransaction? || step.Transmit? || step.Record?
    requires Inv(c, s') && StateEvolves(s, s', Touched(s, step))
    ensures Core(c, s')
  {
    hide Apply, Enabled, Sound, Inv, StateEvolves;
    match step {
      case Record(w) => RecordSafe(c, s, w, s');
      case Refuse(w) => RefuseSafe(c, s, w, s');
      case SendTransaction(w) => SendTransactionSafe(c, s, w, s');
      case Transmit(w, left) => TransmitSafe(c, s, w, left, s');
    }
  }

  lemma OtherWriteCore(c: Config, s: State, step: Step, s': State)
    requires Sound(c, s) && Enabled(c, s, step) && Guarded(s, step) && s' == Apply(c, s, step)
    requires step.RecordPass? || step.MarkAmbiguous? || ProposalStep(step)
    requires Inv(c, s') && StateEvolves(s, s', {})
    ensures Core(c, s')
  {
    hide Apply, Enabled, Sound, Inv, StateEvolves, Guarded;
    if step.RecordPass? { RecordPassSafe(c, s, step.w, s'); }
    else if step.MarkAmbiguous? { MarkAmbiguousSafe(c, s, step.w, s'); }
    else { ProposalStepSafe(c, s, step, s'); }
  }

  lemma WritingStepCore(c: Config, s: State, step: Step, s': State)
    requires Sound(c, s) && Enabled(c, s, step) && Guarded(s, step) && WritingStep(step) && s' == Apply(c, s, step)
    requires Inv(c, s') && StateEvolves(s, s', Touched(s, step))
    ensures Core(c, s')
  {
    hide Apply, Enabled, Sound, Inv, StateEvolves, Guarded, Core;
    if step.Crash? { CrashCore(c, s, step.w, s'); }
    else if step.RecordPass? || step.MarkAmbiguous? || ProposalStep(step) { OtherWriteCore(c, s, step, s'); }
    else { JobWriteCore(c, s, step, s'); }
  }

  lemma CrashCore(c: Config, s: State, w: WorkerId, s': State)
    requires Sound(c, s) && Enabled(c, s, Crash(w)) && s' == Apply(c, s, Crash(w))
    ensures Core(c, s')
  {
    hide Sound, Attributed, NoOrphans, Covered;
    RollbackSafe(c, s, s');
  }

  lemma WritingStepEvidence(c: Config, s: State, step: Step, s': State)
    requires Sound(c, s) && Enabled(c, s, step) && WritingStep(step) && s' == Apply(c, s, step)
    requires Inv(c, s') && StateEvolves(s, s', Touched(s, step)) && Timely(c, s')
    ensures EvidenceOk(c, s')
  {
    hide Apply, Enabled, Inv, StateEvolves, Timely, EvidenceOk, NewOrdersAreNow, Attributed, NoOrphans, Covered, Evidence;
    WritingStepFrame(c, s, step, s');
    if ProposalStep(step) {
      EvidenceStays(c, s, s');
    } else {
      EvidenceMoves(c, s, s', Touched(s, step), step.w);
    }
  }

  /** A writing step moves at most its own worker, which then has nothing to show evidence for. */
  lemma WritingStepFrame(c: Config, s: State, step: Step, s': State)
    requires Enabled(c, s, step) && WritingStep(step) && s' == Apply(c, s, step)
    ensures NewOrdersAreNow(s, s')
    ensures ProposalStep(step) ==> s'.workers == s.workers && Touched(s, step) == {}
    ensures !ProposalStep(step) ==>
              && (forall v :: v in s'.workers && v != step.w ==> v in s.workers && s'.workers[v] == s.workers[v])
              && (step.w in s'.workers ==> Evidence(c, s', s'.workers[step.w]))
  {
  }

  lemma SharedStepSound(c: Config, s: State, step: Step, s': State)
    requires Sound(c, s) && Enabled(c, s, step) && PageDeepEnough(c, s, step) && SharedStep(step)
    requires s' == Apply(c, s, step) && Inv(c, s') && Timely(c, s')
    ensures Sound(c, s')
  {
    SharedStepFrame(c, s, step);
    SharedIsQuiet(c, s, s');
    hide Apply, Enabled, PageDeepEnough;
    WorkerStepSafe(c, s, step);
  }

  lemma WritingStepSound(c: Config, s: State, step: Step, s': State)
    requires Sound(c, s) && Enabled(c, s, step) && Guarded(s, step) && WritingStep(step) && s' == Apply(c, s, step)
    requires Inv(c, s') && StateEvolves(s, s', Touched(s, step)) && Timely(c, s')
    ensures Sound(c, s')
  {
    hide Apply, Enabled, Inv, StateEvolves, Guarded, Attributed, Linked, NoOrphans, Covered, EvidenceOk, Timely;
    WritingStepCore(c, s, step, s');
    StepLinked(c, s, step, s');
    WritingStepEvidence(c, s, step, s');
  }

  lemma StepSafe(c: Config, s: State, step: Step, s': State)
    requires Sound(c, s) && Next(c, s, step, s') && PageDeepEnough(c, s, step) && Guarded(s, step) && Timely(c, s')
    ensures Sound(c, s')
  {
    assert Inv(c, s);
    StepKeeps(c, s, step);
    hide Apply, Enabled, Inv, StateEvolves, Guarded, PageDeepEnough, Timely;
    if SharedStep(step) { SharedStepSound(c, s, step, s'); }
    else if OutsideStep(step) { OutsideStepSafe(c, s, step); }
    else { WritingStepSound(c, s, step, s'); }
  }
}
