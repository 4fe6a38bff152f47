/** What every run of the execution protocol keeps, with no assumption about timing or scheduling. */
module ExecutionSafety {
  import opened Wrappers
  import opened Lifecycle
  import opened Ledger
  import opened Matching
  import opened Protocol
  import P = Preflight
  import T = Transmission

  // ---------------------------------------------------------------- the invariant

  /** The order carries exactly what its attempt asked for, and was made after the attempt's send time. */
  ghost predicate FromAttempt(o: Order, a: Attempt) {
    && o.ticker == a.ticker && o.signed == a.signed && a.signed != 0 && o.market && o.byApi
    && a.sentAt.Some? && a.sentAt.value <= o.createdAt
  }

  ghost predicate TransitOk(s: State, a: AttId) {
    && a < |s.db.attempts| && s.db.attempts[a].sent && s.db.attempts[a].signed != 0 && s.posts[a] == 1
    && forall id :: 0 <= id < |s.orders| ==> !Owns(s.orders, id, a)
  }

  ghost predicate OwnerOk(s: State, id: OrderId, a: AttId)
    requires id < |s.orders|
  {
    && a < |s.db.attempts| && s.db.attempts[a].sent && s.posts[a] == 1
    && FromAttempt(s.orders[id], s.db.attempts[a])
  }

  ghost predicate BrokerOk(s: State) {
    && (forall a :: a in s.transit ==> TransitOk(s, a))
    && (forall id, a :: Owns(s.orders, id, a) ==> OwnerOk(s, id, a))
    && (forall id, other, a :: Owns(s.orders, id, a) && Owns(s.orders, other, a) ==> id == other)
    && (forall id :: 0 <= id < |s.orders| ==>
          s.orders[id].createdAt <= s.clock && (s.orders[id].owner.None? ==> !(s.orders[id].byApi && s.orders[id].market)))
  }

  ghost predicate PostsOk(s: State) {
    && (forall a :: s.posts[a] <= 1)
    && (forall a :: a in s.posts ==> a < |s.db.attempts|)
    && (forall a :: 0 <= a < |s.db.attempts| && s.db.attempts[a].sent ==>
          s.db.attempts[a].sentAt.Some? && s.db.attempts[a].sentAt.value <= s.clock && s.db.attempts[a].signed != 0)
  }

  /** The row a worker read is the row still there, unless the version moved. */
  ghost predicate Seen(s: State, pid: PropId, row: Proposal) {
    pid < |s.db.proposals| && ProposalEvolves(row, s.db.proposals[pid])
  }

  /** The local gates as they stood for a control reading that was not halted. */
  ghost predicate Gated(c: Config, row: Proposal, now: int) {
    P.LocalGates(c.settings, row, P.Control(false, false), now, false)
  }

  ghost predicate FactsOk(s: State, f: Facts) {
    && f.attempt < |s.db.attempts|
    && f.ticker == s.db.attempts[f.attempt].ticker && f.signed == s.db.attempts[f.attempt].signed
    && (s.db.attempts[f.attempt].sent ==> f.sentAt == s.db.attempts[f.attempt].sentAt)
  }

  ghost predicate ViewOk(orders: seq<Order>, id: OrderId, v: View) {
    && id < |orders| && orders[id].readable
    && v.ticker == Some(orders[id].ticker) && v.signed == Some(orders[id].signed)
    && v.market == orders[id].market && v.byApi == orders[id].byApi && v.createdAt == Some(orders[id].createdAt)
  }

  ghost predicate FoundOk(s: State, found: map<OrderId, View>) {
    forall id :: id in found ==> ViewOk(s.orders, id, found[id])
  }

  /** A worker between its claim and the recording of the answer holds its attempt alone. */
  function Holds(pc: Pc): set<AttId> {
    match pc
    case Committed(aid) => {aid}
    case Posting(aid) => {aid}
    case Returned(aid, _) => {aid}
    case _ => {}
  }

  ghost predicate HolderOk(s: State, aid: AttId, posts: nat) {
    aid < |s.db.attempts| && s.db.attempts[aid].sent && s.posts[aid] == posts
  }

  ghost predicate AnswerOk(s: State, aid: AttId, answer: T.Submission) {
    match answer
    case Acknowledged(order, _) => Owns(s.orders, order, aid)
    case Unknown(_) => true
    case _ => NoTrace(s, aid)
  }

  /** The risk engine refused the trade itself. */
  ghost predicate RefusedTrade(row: Proposal, v: P.Revalidation) {
    !P.RiskGates(row, v) && !P.Transient(set r | r in v.blocked)
  }

  ghost predicate WindowStart(c: Config, f: Facts, since: int) {
    f.sentAt.Some? ==> since == f.sentAt.value - c.window
  }

  ghost predicate PcOk(c: Config, s: State, pc: Pc) {
    match pc
    case Opened(pid, now) => pid < |s.db.proposals| && now <= s.clock
    case Loaded(pid, now, row) => Seen(s, pid, row) && now <= s.clock
    case Screened(pid, now, row) => Seen(s, pid, row) && now <= s.clock && Gated(c, row, now)
    case Cleared(pid, now, row, again, verdict) =>
      && Seen(s, pid, row) && Seen(s, pid, again) && ProposalEvolves(row, again) && now <= s.clock
      && Gated(c, row, now) && P.RiskGates(row, verdict)
    case Refusing(pid, now, row, refusal, invalidates) =>
      && pid < |s.db.proposals| && now <= s.clock && (refusal.Some? ==> Gated(c, row, now))
      && (invalidates <==> refusal.Some? && RefusedTrade(row, refusal.value))
    case Committed(aid) => HolderOk(s, aid, 0)
    case Posting(aid) => HolderOk(s, aid, 1)
    case Returned(aid, answer) => HolderOk(s, aid, 1) && AnswerOk(s, aid, answer)
    case Recovering(aid) => aid < |s.db.attempts|
    case Searching(f, now) => FactsOk(s, f) && now <= s.clock
    case PendingRead(f, now, found, _, since) => FactsOk(s, f) && now <= s.clock && FoundOk(s, found) && WindowStart(c, f, since)
    case HistoryRead(f, now, found, _, since) => FactsOk(s, f) && now <= s.clock && FoundOk(s, found) && WindowStart(c, f, since)
    case Concluding(f, now, _, _) => FactsOk(s, f) && now <= s.clock
  }

  ghost predicate WorkersOk(c: Config, s: State) {
    && (forall w :: w in s.workers ==> PcOk(c, s, s.workers[w]))
    && (forall w, v :: w in s.workers && v in s.workers && w != v ==> Holds(s.workers[w]) !! Holds(s.workers[v]))
  }

  ghost predicate Inv(c: Config, s: State) {
    Valid(s.db) && BrokerOk(s) && PostsOk(s) && WorkersOk(c, s)
  }

  // ---------------------------------------------------------------- how the whole state may move

  ghost predicate QuietFor(s: State, s': State, a: AttId) {
    s'.posts[a] == s.posts[a] && (NoTrace(s, a) ==> NoTrace(s', a))
  }

  ghost predicate StateEvolves(s: State, s': State, touched: set<AttId>) {
    && Evolves(s.db, s'.db, touched) && OrdersEvolve(s.orders, s'.orders) && s.clock <= s'.clock
    && forall a :: 0 <= a < |s.db.attempts| && a !in touched ==> QuietFor(s, s', a)
  }

  /** The attempts whose mark, transmission count or trace the step may change. */
  function Touched(s: State, step: Step): set<AttId> {
    match step
    case Transmit(w, _) => if w in s.workers then Holds(s.workers[w]) else {}
    case Record(w) => if w in s.workers then Holds(s.workers[w]) else {}
    case _ => {}
  }

  /** Whatever another actor does, what a worker carries stays true. */
  lemma PcStable(c: Config, s: State, s': State, pc: Pc, touched: set<AttId>)
    requires PcOk(c, s, pc) && StateEvolves(s, s', touched) && Holds(pc) !! touched
    ensures PcOk(c, s', pc)
  {
    match pc {
      case Returned(aid, answer) =>
        assert aid in Holds(pc);
        assert QuietFor(s, s', aid);
        if answer.Acknowledged? { assert OrderEvolves(s.orders[answer.order], s'.orders[answer.order]); }
      case Committed(aid) => assert aid in Holds(pc); assert QuietFor(s, s', aid);
      case Posting(aid) => assert aid in Holds(pc); assert QuietFor(s, s', aid);
      case PendingRead(f, _, found, _, _) => FoundStable(s, s', found, touched); FactsStable(s, s', f, touched);
      case HistoryRead(f, _, found, _, _) => FoundStable(s, s', found, touched); FactsStable(s, s', f, touched);
      case Searching(f, _) => FactsStable(s, s', f, touched);
      case Concluding(f, _, _, _) => FactsStable(s, s', f, touched);
      case Loaded(pid, _, row) => SeenStable(s, s', pid, row, touched);
      case Screened(pid, _, row) => SeenStable(s, s', pid, row, touched);
      case Cleared(pid, _, row, again, _) =>
        SeenStable(s, s', pid, row, touched);
        SeenStable(s, s', pid, again, touched);
      case _ =>
    }
  }

  lemma SeenStable(s: State, s': State, pid: PropId, row: Proposal, touched: set<AttId>)
    requires Seen(s, pid, row) && StateEvolves(s, s', touched)
    ensures Seen(s', pid, row)
  {
    assert ProposalEvolves(s.db.proposals[pid], s'.db.proposals[pid]);
  }

  lemma FactsStable(s: State, s': State, f: Facts, touched: set<AttId>)
    requires FactsOk(s, f) && StateEvolves(s, s', touched)
    ensures FactsOk(s', f)
  {
    assert AttemptEvolves(s.db.attempts[f.attempt], s'.db.attempts[f.attempt]);
  }

  lemma FoundStable(s: State, s': State, found: map<OrderId, View>, touched: set<AttId>)
    requires FoundOk(s, found) && StateEvolves(s, s', touched)
    ensures FoundOk(s', found)
  {
    forall id | id in found ensures ViewOk(s'.orders, id, found[id]) {
      assert ViewOk(s.orders, id, found[id]);
      assert OrderEvolves(s.orders[id], s'.orders[id]);
    }
  }

  function HeldBy(s: State, w: WorkerId): set<AttId> {
    if w in s.workers then Holds(s.workers[w]) else {}
  }

  /** One worker moves to `pc`, touching nothing but what it held. */
  lemma WorkerMoves(c: Config, s: State, s': State, w: WorkerId, pc: Pc, touched: set<AttId>)
    requires WorkersOk(c, s) && StateEvolves(s, s', touched) && touched <= HeldBy(s, w)
    requires s'.workers == s.workers[w := pc] && PcOk(c, s', pc)
    requires forall a :: a in Holds(pc) ==> a in HeldBy(s, w) || a >= |s.db.attempts|
    ensures WorkersOk(c, s')
  {
    forall v | v in s'.workers && v != w ensures PcOk(c, s', s'.workers[v]) && Holds(s'.workers[v]) !! Holds(pc) {
      PcStable(c, s, s', s.workers[v], touched);
      forall a | a in Holds(s.workers[v]) ensures a < |s.db.attempts| {
        assert PcOk(c, s, s.workers[v]);
      }
    }
  }

  lemma WorkerLeaves(c: Config, s: State, s': State, w: WorkerId, touched: set<AttId>)
    requires WorkersOk(c, s) && StateEvolves(s, s', touched) && touched <= HeldBy(s, w)
    requires s'.workers == s.workers - {w}
    ensures WorkersOk(c, s')
  {
    forall v | v in s'.workers ensures PcOk(c, s', s'.workers[v]) {
      PcStable(c, s, s', s.workers[v], touched);
    }
  }

  lemma WorkersStay(c: Config, s: State, s': State)
    requires WorkersOk(c, s) && StateEvolves(s, s', {}) && s'.workers == s.workers
    ensures WorkersOk(c, s')
  {
    forall w | w in s'.workers ensures PcOk(c, s', s'.workers[w]) {
      PcStable(c, s, s', s.workers[w], {});
    }
  }

  // ---------------------------------------------------------------- steps that only move a worker

  ghost predicate SameShared(s: State, s': State) {
    s' == s.(workers := s'.workers)
  }

  lemma SharedIsQuiet(c: Config, s: State, s': State)
    requires Inv(c, s) && SameShared(s, s')
    ensures StateEvolves(s, s', {}) && Valid(s'.db) && BrokerOk(s') && PostsOk(s')
  {
  }

  ghost predicate JobStep(step: Step) {
    step.Begin? || step.Load? || step.Screen? || step.Revalidate? || step.Defer?
  }

  lemma JobStepKeeps(c: Config, s: State, step: Step)
    requires Inv(c, s) && Enabled(c, s, step) && JobStep(step)
    ensures Inv(c, Apply(c, s, step)) && StateEvolves(s, Apply(c, s, step), {})
  {
    hide Enabled, Apply, PcOk, StateEvolves, BrokerOk, PostsOk, Valid, Holds;
    var s' := Apply(c, s, step);
    JobStepPc(c, s, step);
    SharedIsQuiet(c, s, s');
    WorkerMoves(c, s, s', step.w, s'.workers[step.w], {});
  }

  lemma JobStepPc(c: Config, s: State, step: Step)
    requires Inv(c, s) && Enabled(c, s, step) && JobStep(step)
    ensures var s' := Apply(c, s, step);
            && SameShared(s, s') && s'.workers == s.workers[step.w := s'.workers[step.w]]
            && PcOk(c, s', s'.workers[step.w]) && Holds(s'.workers[step.w]) == {}
  {
    hide Inv, Apply, Enabled, PcOk, Holds;
    JobFrame(c, s, step);
    match step {
      case Begin(w, pid) => BeginPc(c, s, w, pid);
      case Load(w) => LoadPc(c, s, w);
      case Screen(w) => ScreenPc(c, s, w);
      case Revalidate(w, verdict) => RevalidatePc(c, s, w, verdict);
      case Defer(w) => DeferPc(c, s, w);
    }
  }

  lemma JobFrame(c: Config, s: State, step: Step)
    requires Enabled(c, s, step) && JobStep(step)
    ensures var s' := Apply(c, s, step);
            && SameShared(s, s') && s'.workers == s.workers[step.w := s'.workers[step.w]]
            && Holds(s'.workers[step.w]) == {}
  {
  }

  lemma BeginPc(c: Config, s: State, w: WorkerId, pid: PropId)
    requires Enabled(c, s, Begin(w, pid))
    ensures var s' := Apply(c, s, Begin(w, pid)); PcOk(c, s', s'.workers[w])
  {
  }

  lemma LoadPc(c: Config, s: State, w: WorkerId)
    requires Inv(c, s) && Enabled(c, s, Load(w))
    ensures var s' := Apply(c, s, Load(w)); PcOk(c, s', s'.workers[w])
  {
    hide Inv;
    HasPc(c, s, w);
  }

  lemma ScreenPc(c: Config, s: State, w: WorkerId)
    requires Inv(c, s) && Enabled(c, s, Screen(w))
    ensures var s' := Apply(c, s, Screen(w)); PcOk(c, s', s'.workers[w])
  {
    hide Inv;
    HasPc(c, s, w);
  }

  lemma RevalidatePc(c: Config, s: State, w: WorkerId, verdict: Option<P.Revalidation>)
    requires Inv(c, s) && Enabled(c, s, Revalidate(w, verdict))
    ensures var s' := Apply(c, s, Revalidate(w, verdict)); PcOk(c, s', s'.workers[w])
  {
    hide Inv;
    HasPc(c, s, w);
  }

  lemma DeferPc(c: Config, s: State, w: WorkerId)
    requires Inv(c, s) && Enabled(c, s, Defer(w))
    ensures var s' := Apply(c, s, Defer(w)); PcOk(c, s', s'.workers[w])
  {
    hide Inv;
    HasPc(c, s, w);
  }

  ghost predicate PassStep(step: Step) {
    step.FindStranded? || step.ReadFacts? || step.Lookup? || step.ReadPending? || step.ReadHistory? || step.Conclude?
  }

  lemma PassStepKeeps(c: Config, s: State, step: Step)
    requires Inv(c, s) && Enabled(c, s, step) && PassStep(step)
    ensures Inv(c, Apply(c, s, step)) && StateEvolves(s, Apply(c, s, step), {})
  {
    hide Enabled, Apply, PcOk, StateEvolves, BrokerOk, PostsOk, Valid, Holds;
    var s' := Apply(c, s, step);
    PassStepPc(c, s, step);
    SharedIsQuiet(c, s, s');
    WorkerMoves(c, s, s', step.w, s'.workers[step.w], {});
  }

  lemma PassStepPc(c: Config, s: State, step: Step)
    requires Inv(c, s) && Enabled(c, s, step) && PassStep(step)
    ensures var s' := Apply(c, s, step);
            && SameShared(s, s') && s'.workers == s.workers[step.w := s'.workers[step.w]]
            && PcOk(c, s', s'.workers[step.w]) && Holds(s'.workers[step.w]) == {}
  {
    hide Inv, Apply, Enabled, PcOk, Holds;
    PassFrame(c, s, step);
    match step {
      case FindStranded(w, aid) => FindStrandedPc(c, s, w, aid);
      case ReadFacts(w, aid) => ReadFactsPc(c, s, w, aid);
      case Lookup(w, result) => LookupPc(c, s, w, result);
      case ReadPending(w, reply) => ReadPendingPc(c, s, w, reply);
      case ReadHistory(w, reply) => ReadHistoryPc(c, s, w, reply);
      case Conclude(w) => ConcludePc(c, s, w);
    }
  }

  lemma PassFrame(c: Config, s: State, step: Step)
    requires Enabled(c, s, step) && PassStep(step)
    ensures var s' := Apply(c, s, step);
            && SameShared(s, s') && s'.workers == s.workers[step.w := s'.workers[step.w]]
            && Holds(s'.workers[step.w]) == {}
  {
    hide Conclusions, PendingAnswer, HistoryAnswer;
  }

  lemma HasPc(c: Config, s: State, w: WorkerId)
    requires Inv(c, s) && w in s.workers
    ensures PcOk(c, s, s.workers[w])
  {
  }

  lemma FindStrandedPc(c: Config, s: State, w: WorkerId, aid: AttId)
    requires Enabled(c, s, FindStranded(w, aid))
    ensures var s' := Apply(c, s, FindStranded(w, aid)); PcOk(c, s', s'.workers[w])
  {
  }

  lemma ReadFactsPc(c: Config, s: State, w: WorkerId, aid: AttId)
    requires Enabled(c, s, ReadFacts(w, aid))
    ensures var s' := Apply(c, s, ReadFacts(w, aid)); PcOk(c, s', s'.workers[w])
  {
  }

  lemma LookupPc(c: Config, s: State, w: WorkerId, result: Conclusion)
    requires Inv(c, s) && Enabled(c, s, Lookup(w, result))
    ensures var s' := Apply(c, s, Lookup(w, result)); PcOk(c, s', s'.workers[w])
  {
    hide Inv;
    HasPc(c, s, w);
  }

  lemma ConcludePc(c: Config, s: State, w: WorkerId)
    requires Inv(c, s) && Enabled(c, s, Conclude(w))
    ensures var s' := Apply(c, s, Conclude(w)); PcOk(c, s', s'.workers[w])
  {
    hide Inv, Conclusions, FoundOk;
    HasPc(c, s, w);
  }

  lemma ReadPendingPc(c: Config, s: State, w: WorkerId, reply: Reply)
    requires Inv(c, s) && Enabled(c, s, ReadPending(w, reply))
    ensures var s' := Apply(c, s, ReadPending(w, reply)); PcOk(c, s', s'.workers[w])
  {
    hide Inv, PendingAnswer, ViewOk;
    HasPc(c, s, w);
    PendingViews(s, reply);
  }

  lemma ReadHistoryPc(c: Config, s: State, w: WorkerId, reply: Reply)
    requires Inv(c, s) && Enabled(c, s, ReadHistory(w, reply))
    ensures var s' := Apply(c, s, ReadHistory(w, reply)); PcOk(c, s', s'.workers[w])
  {
    hide Inv, HistoryAnswer, ViewOk;
    HasPc(c, s, w);
    HistoryViews(s, s.workers[w].found, reply, s.workers[w].f.ticker);
  }

  lemma PendingViews(s: State, reply: Reply)
    requires reply.Answered? ==> PendingAnswer(s.orders, reply.orders)
    ensures FoundOk(s, PendingFound(reply))
  {
    if reply.Answered? { IndexedMeans(reply.orders); }
  }

  lemma HistoryViews(s: State, found: map<OrderId, View>, reply: Reply, ticker: string)
    requires FoundOk(s, found)
    requires reply.Answered? ==> HistoryAnswer(s.orders, reply.orders, ticker)
    ensures FoundOk(s, AllFound(found, reply))
  {
    if reply.Answered? {
      MergedMeans(found, reply.orders);
      forall id | id in AllFound(found, reply) ensures ViewOk(s.orders, id, AllFound(found, reply)[id]) {
        if id in found { assert ViewOk(s.orders, id, found[id]); }
      }
    }
  }

  lemma ReturnKeeps(c: Config, s: State, w: WorkerId, event: T.TransportEvent)
    requires Inv(c, s) && Enabled(c, s, Return(w, event))
    ensures Inv(c, Apply(c, s, Return(w, event))) && StateEvolves(s, Apply(c, s, Return(w, event)), {})
  {
    var s' := Apply(c, s, Return(w, event));
    SharedIsQuiet(c, s, s');
    var aid := s.workers[w].aid;
    assert PcOk(c, s, s.workers[w]);
    assert s.db.attempts[aid].signed != 0;
    WorkerMoves(c, s, s', w, s'.workers[w], {});
  }

  // ---------------------------------------------------------------- steps of the broker and of everyone else

  ghost predicate OutsideStep(step: Step) {
    step.Tick? || step.SetControl? || step.Place? || step.Accept? || step.Lose? || step.Reveal? || step.Finish?
  }

  lemma AcceptKeeps(c: Config, s: State, aid: AttId)
    requires Inv(c, s) && Enabled(c, s, Accept(aid))
    ensures BrokerOk(Apply(c, s, Accept(aid))) && StateEvolves(s, Apply(c, s, Accept(aid)), {})
  {
    var s' := Apply(c, s, Accept(aid));
    hide WorkersOk, PostsOk, Valid;
    var n := |s.orders|;
    assert TransitOk(s, aid);
    forall id: OrderId, a: AttId | Owns(s'.orders, id, a) ensures OwnerOk(s', id, a) && (id != n ==> Owns(s.orders, id, a)) && (id == n ==> a == aid) {
      if id != n { assert Owns(s.orders, id, a); }
    }
    forall a: AttId | a in s'.transit ensures TransitOk(s', a) {
      assert TransitOk(s, a);
    }
    forall a | 0 <= a < |s.db.attempts| && NoTrace(s, a) ensures NoTrace(s', a) {
      forall id | 0 <= id < |s'.orders| ensures !Owns(s'.orders, id, a) {
        if id < n { assert !Owns(s.orders, id, a); }
      }
    }
  }

  lemma OrdersMoveKeeps(c: Config, s: State, s': State)
    requires Inv(c, s)
    requires s' == s.(orders := s'.orders) && |s.orders| <= |s'.orders|
    requires forall id :: 0 <= id < |s.orders| ==> OrderEvolves(s.orders[id], s'.orders[id])
    requires forall id :: |s.orders| <= id < |s'.orders| ==>
      s'.orders[id].owner.None? && !(s'.orders[id].byApi && s'.orders[id].market) && s'.orders[id].createdAt <= s.clock
    ensures BrokerOk(s') && StateEvolves(s, s', {})
  {
    forall id: OrderId, a: AttId | Owns(s'.orders, id, a) ensures Owns(s.orders, id, a) && OwnerOk(s', id, a) {
      assert id < |s.orders| && OrderEvolves(s.orders[id], s'.orders[id]);
      assert Owns(s.orders, id, a);
      assert OwnerOk(s, id, a);
    }
    forall a: AttId | a in s'.transit ensures TransitOk(s', a) { assert TransitOk(s, a); }
    forall a | 0 <= a < |s.db.attempts| && NoTrace(s, a) ensures NoTrace(s', a) {
      forall id | 0 <= id < |s'.orders| ensures !Owns(s'.orders, id, a) {
        if id < |s.orders| { assert !Owns(s.orders, id, a); assert OrderEvolves(s.orders[id], s'.orders[id]); }
      }
    }
  }

  lemma OutsideStepKeeps(c: Config, s: State, step: Step)
    requires Inv(c, s) && Enabled(c, s, step) && OutsideStep(step)
    ensures Inv(c, Apply(c, s, step)) && StateEvolves(s, Apply(c, s, step), {})
  {
    hide Enabled, Apply, StateEvolves, BrokerOk, WorkersOk, Valid;
    var s' := Apply(c, s, step);
    OutsideKeepsBroker(c, s, step);
    WorkersStay(c, s, s');
  }

  lemma OutsideKeepsBroker(c: Config, s: State, step: Step)
    requires Inv(c, s) && Enabled(c, s, step) && OutsideStep(step)
    ensures var s' := Apply(c, s, step);
            && s'.db == s.db && s'.workers == s.workers && s'.posts == s.posts && s.clock <= s'.clock
            && BrokerOk(s') && StateEvolves(s, s', {})
  {
    hide WorkersOk, PostsOk, Valid;
    var s' := Apply(c, s, step);
    match step {
      case Accept(aid) => AcceptKeeps(c, s, aid);
      case Place(order) => OrdersMoveKeeps(c, s, s');
      case Reveal(id) => OrdersMoveKeeps(c, s, s');
      case Finish(id, status) => OrdersMoveKeeps(c, s, s');
      case _ =>
    }
  }

  ghost predicate ProposalStep(step: Step) {
    step.Create? || step.Edit? || step.Cancel?
  }

  lemma ProposalStepKeeps(c: Config, s: State, step: Step)
    requires Inv(c, s) && Enabled(c, s, step) && ProposalStep(step)
    ensures Inv(c, Apply(c, s, step)) && StateEvolves(s, Apply(c, s, step), {})
  {
    var s' := Apply(c, s, step);
    ProposalStepLedger(c, s, step);
    LedgerIsQuiet(c, s, s', {});
    WorkersStay(c, s, s');
  }

  lemma ProposalStepLedger(c: Config, s: State, step: Step)
    requires Inv(c, s) && Enabled(c, s, step) && ProposalStep(step)
    ensures Valid(Apply(c, s, step).db) && Evolves(s.db, Apply(c, s, step).db, {})
  {
    hide Valid, Evolves, BrokerOk, PostsOk, WorkersOk;
    ProposalStepMoves(c, s, step);
    ProposalsMoveKeepsValid(s.db, Apply(c, s, step).db.proposals);
  }

  lemma CancelMoves(proposals: seq<Proposal>, pid: PropId)
    requires OneActivePerTicker(proposals) && pid < |proposals| && CanTransition(proposals[pid].status, Cancelled)
    ensures ProposalsMove(proposals, proposals[pid := proposals[pid].Moved(Cancelled)])
  {
  }

  lemma ProposalStepMoves(c: Config, s: State, step: Step)
    requires Inv(c, s) && Enabled(c, s, step) && ProposalStep(step)
    ensures ProposalsMove(s.db.proposals, Apply(c, s, step).db.proposals)
    ensures Apply(c, s, step).db == s.db.(proposals := Apply(c, s, step).db.proposals)
  {
    hide OneActivePerTicker, RowsMatch, Numbered, SentOnce, FlightHasSender, BrokerOk, PostsOk, WorkersOk;
    if step.Cancel? { CancelMoves(s.db.proposals, step.pid); }
  }

  // ---------------------------------------------------------------- ledger transactions

  /** A transaction that keeps every mark leaves the broker's side of the invariant alone. */
  lemma LedgerIsQuiet(c: Config, s: State, s': State, touched: set<AttId>)
    requires Inv(c, s) && Evolves(s.db, s'.db, touched)
    requires s'.orders == s.orders && s'.transit == s.transit && s'.posts == s.posts && s'.clock == s.clock
    requires forall a :: a in touched ==> NoTrace(s, a)
    ensures BrokerOk(s') && StateEvolves(s, s', touched)
  {
    forall a: AttId | a in s'.transit ensures TransitOk(s', a) {
      assert TransitOk(s, a);
      assert AttemptEvolves(s.db.attempts[a], s'.db.attempts[a]);
    }
    forall id: OrderId, a: AttId | Owns(s'.orders, id, a) ensures OwnerOk(s', id, a) {
      assert OwnerOk(s, id, a);
      assert AttemptEvolves(s.db.attempts[a], s'.db.attempts[a]);
    }
  }

  /** What it inserts as sent was sent in the past, for a nonzero quantity. */
  ghost predicate InsertsWellFormed(s: State, d: Db) {
    forall a :: |s.db.attempts| <= a < |d.attempts| && d.attempts[a].sent ==>
      d.attempts[a].sentAt.Some? && d.attempts[a].sentAt.value <= s.clock && d.attempts[a].signed != 0
  }

  lemma PostsCarry(s: State, s': State, touched: set<AttId>)
    requires PostsOk(s) && Evolves(s.db, s'.db, touched) && InsertsWellFormed(s, s'.db)
    requires s'.posts == s.posts && s'.clock == s.clock
    ensures PostsOk(s')
  {
    forall a | 0 <= a < |s'.db.attempts| && s'.db.attempts[a].sent
      ensures s'.db.attempts[a].sentAt.Some? && s'.db.attempts[a].sentAt.value <= s'.clock && s'.db.attempts[a].signed != 0
    {
      if a < |s.db.attempts| { assert AttemptEvolves(s.db.attempts[a], s'.db.attempts[a]); }
    }
  }

  /** A worker ends with a transaction that committed or rolled back. */
  lemma SettleKeeps(c: Config, s: State, w: WorkerId, r: Option<Db>, touched: set<AttId>)
    requires Inv(c, s) && w in s.workers && touched <= HeldBy(s, w)
    requires forall a :: a in touched ==> NoTrace(s, a)
    requires r.Some? ==> Valid(r.value) && Evolves(s.db, r.value, touched) && InsertsWellFormed(s, r.value)
    ensures Inv(c, Settle(s, w, r)) && StateEvolves(s, Settle(s, w, r), touched)
  {
    var s' := Settle(s, w, r);
    LedgerIsQuiet(c, s, s', touched);
    PostsCarry(s, s', touched);
    WorkerLeaves(c, s, s', w, touched);
  }

  lemma RecordedKeepsValid(db: Db, aid: AttId, answer: T.Submission)
    requires Valid(db) && Known(db, aid) && db.attempts[aid].sent
    ensures var r := Recorded(db, aid, answer);
            r.Some? ==> Valid(r.value) && Evolves(db, r.value, if answer.NotTransmitted? then {aid} else {})
  {
    hide Valid, Evolves, RecordSuccess, RecordRejection, RetractUnsent, RecordAmbiguous;
    match answer {
      case Acknowledged(order, status) => SuccessKeepsValid(db, aid, order, status);
      case Rejected(_) => RejectionKeepsValid(db, aid);
      case NotTransmitted => RetractKeepsValid(db, aid);
      case Unknown(_) => AmbiguousKeepsValid(db, aid);
    }
  }

  lemma RecordedLength(db: Db, aid: AttId, answer: T.Submission)
    requires Known(db, aid)
    ensures var r := Recorded(db, aid, answer); r.Some? ==> |r.value.attempts| == |db.attempts|
  {
  }

  lemma RecordKeeps(c: Config, s: State, w: WorkerId)
    requires Inv(c, s) && Enabled(c, s, Record(w))
    ensures Inv(c, Apply(c, s, Record(w))) && StateEvolves(s, Apply(c, s, Record(w)), HeldBy(s, w))
  {
    var aid, answer := s.workers[w].aid, s.workers[w].answer;
    var touched := if answer.NotTransmitted? then {aid} else {};
    assert PcOk(c, s, s.workers[w]);
    RecordedKeepsValid(s.db, aid, answer);
    RecordedLength(s.db, aid, answer);
    var r := Recorded(s.db, aid, answer);
    SettleKeeps(c, s, w, r, touched);
    WidenTouched(s, Settle(s, w, r), touched, HeldBy(s, w));
  }

  lemma WidenTouched(s: State, s': State, few: set<AttId>, many: set<AttId>)
    requires StateEvolves(s, s', few) && few <= many
    ensures StateEvolves(s, s', many)
  {
  }

  lemma SweepKeeps(c: Config, s: State, step: Step)
    requires Inv(c, s) && Enabled(c, s, step) && (step.MarkAmbiguous? || step.RecordPass? || step.Crash?)
    ensures Inv(c, Apply(c, s, step)) && StateEvolves(s, Apply(c, s, step), {})
  {
    match step {
      case MarkAmbiguous(w) => MarkAmbiguousKeeps(c, s, w);
      case RecordPass(w) => RecordPassKeeps(c, s, w);
      case Crash(w) => SettleKeeps(c, s, w, None, {});
    }
  }

  lemma MarkAmbiguousKeeps(c: Config, s: State, w: WorkerId)
    requires Inv(c, s) && Enabled(c, s, MarkAmbiguous(w))
    ensures Inv(c, Apply(c, s, MarkAmbiguous(w))) && StateEvolves(s, Apply(c, s, MarkAmbiguous(w)), {})
  {
    var aid := s.workers[w].aid;
    AmbiguousKeepsValid(s.db, aid);
    SettleKeeps(c, s, w, RecordAmbiguous(s.db, aid), {});
  }

  lemma ConclusionLength(db: Db, aid: AttId, result: Conclusion)
    requires Known(db, aid)
    ensures var r := RecordConclusion(db, aid, result); r.Some? ==> |r.value.attempts| == |db.attempts|
  {
  }

  lemma RecordPassKeeps(c: Config, s: State, w: WorkerId)
    requires Inv(c, s) && Enabled(c, s, RecordPass(w))
    ensures Inv(c, Apply(c, s, RecordPass(w))) && StateEvolves(s, Apply(c, s, RecordPass(w)), {})
  {
    var aid, result := s.workers[w].f.attempt, s.workers[w].result;
    hide RecordConclusion;
    ConclusionKeepsValid(s.db, aid, result);
    ConclusionLength(s.db, aid, result);
    SettleKeeps(c, s, w, RecordConclusion(s.db, aid, result), {});
  }

  lemma RefuseKeeps(c: Config, s: State, w: WorkerId)
    requires Inv(c, s) && Enabled(c, s, Refuse(w))
    ensures Inv(c, Apply(c, s, Refuse(w))) && StateEvolves(s, Apply(c, s, Refuse(w)), {})
  {
    var pc := s.workers[w];
    RefusalKeepsValid(s.db, pc.pid, pc.row.ticker, pc.row.Signed(), pc.invalidates);
    SettleKeeps(c, s, w, Some(RecordRefusal(s.db, pc.pid, pc.row.ticker, pc.row.Signed(), pc.invalidates)), {});
  }

  lemma SendTransactionKeeps(c: Config, s: State, w: WorkerId)
    requires Inv(c, s) && Enabled(c, s, SendTransaction(w))
    ensures Inv(c, Apply(c, s, SendTransaction(w))) && StateEvolves(s, Apply(c, s, SendTransaction(w)), {})
  {
    hide Apply, Enabled, Inv, StateEvolves, Valid, Evolves, InsertsWellFormed, Holds;
    var s' := Apply(c, s, SendTransaction(w));
    SendFrame(c, s, w);
    ClaimValid(c, s, w);
    if s'.db == s.db { SettleKeeps(c, s, w, None, {}); } else { ClaimedKeeps(c, s, w, s'); }
  }

  lemma SendFrame(c: Config, s: State, w: WorkerId)
    requires Enabled(c, s, SendTransaction(w))
    ensures var s' := Apply(c, s, SendTransaction(w));
            && w in s.workers && Holds(s.workers[w]) == {}
            && (s'.db == s.db ==> s' == Settle(s, w, None))
            && (s'.db != s.db ==>
                  && s' == Put(s.(db := s'.db), w, Committed(|s.db.attempts|))
                  && |s.db.attempts| < |s'.db.attempts| && s'.db.attempts[|s.db.attempts|].sent)
  {
    hide HasSent, Highest;
  }

  lemma ClaimValid(c: Config, s: State, w: WorkerId)
    requires Inv(c, s) && Enabled(c, s, SendTransaction(w))
    ensures var d := Apply(c, s, SendTransaction(w)).db;
            Valid(d) && Evolves(s.db, d, {}) && InsertsWellFormed(s, d)
  {
    hide BrokerOk, PostsOk, Evolves, RowsMatch, Numbered, SentOnce, FlightHasSender, OneActivePerTicker, HasSent, Highest;
    var pc := s.workers[w];
    HasPc(c, s, w);
    ClaimKeepsValid(s.db, pc.pid, pc.row.version, pc.row.ticker, pc.row.Signed(), s.control.Halted(), pc.now);
    EvolvesNowhere(s.db);
  }

  lemma EvolvesNowhere(db: Db)
    ensures Evolves(db, db, {})
  {
  }

  lemma ClaimedKeeps(c: Config, s: State, w: WorkerId, s': State)
    requires Inv(c, s) && w in s.workers && Holds(s.workers[w]) == {}
    requires Valid(s'.db) && Evolves(s.db, s'.db, {}) && InsertsWellFormed(s, s'.db)
    requires s' == Put(s.(db := s'.db), w, Committed(|s.db.attempts|))
    requires |s.db.attempts| < |s'.db.attempts| && s'.db.attempts[|s.db.attempts|].sent
    ensures Inv(c, s') && StateEvolves(s, s', {})
  {
    hide Valid, Evolves, InsertsWellFormed, BrokerOk, StateEvolves;
    LedgerIsQuiet(c, s, s', {});
    PostsCarry(s, s', {});
    assert |s.db.attempts| !in s.posts;
    WorkerMoves(c, s, s', w, Committed(|s.db.attempts|), {});
  }

  lemma TransmitKeeps(c: Config, s: State, w: WorkerId, left: bool)
    requires Inv(c, s) && Enabled(c, s, Transmit(w, left))
    ensures Inv(c, Apply(c, s, Transmit(w, left))) && StateEvolves(s, Apply(c, s, Transmit(w, left)), HeldBy(s, w))
  {
    hide Apply, Enabled, StateEvolves, PcOk, WorkersOk, BrokerOk, PostsOk, Valid, Holds, NoTrace, HolderOk;
    var s' := Apply(c, s, Transmit(w, left));
    TransmitFrame(c, s, w, left);
    var aid := s.workers[w].aid;
    CommittedHasNoTrace(c, s, w, aid);
    PostedBroker(c, s, s', aid, left);
    PostedPc(c, s, s', aid);
    WorkerMoves(c, s, s', w, Posting(aid), {aid});
  }

  lemma TransmitFrame(c: Config, s: State, w: WorkerId, left: bool)
    requires Enabled(c, s, Transmit(w, left))
    ensures var s' := Apply(c, s, Transmit(w, left));
            && w in s.workers && s.workers[w].Committed? && Known(s.db, s.workers[w].aid)
            && var aid := s.workers[w].aid;
               && HeldBy(s, w) == {aid} && Holds(Posting(aid)) == {aid}
               && (left ==> s.db.attempts[aid].signed != 0)
               && s'.db == s.db && s'.orders == s.orders && s'.clock == s.clock && s'.posts == s.posts + multiset{aid}
               && s'.transit == (if left then s.transit + {aid} else s.transit)
               && s'.workers == s.workers[w := Posting(aid)]
  {
  }

  /** Nothing of an attempt nobody has posted is at the broker. */
  lemma CommittedHasNoTrace(c: Config, s: State, w: WorkerId, aid: AttId)
    requires Inv(c, s) && w in s.workers && s.workers[w] == Committed(aid)
    ensures HolderOk(s, aid, 0) && NoTrace(s, aid)
  {
    hide Valid, PostsOk;
    HasPc(c, s, w);
    assert aid in s.transit ==> TransitOk(s, aid);
    forall id | 0 <= id < |s.orders| ensures !Owns(s.orders, id, aid) {
      assert Owns(s.orders, id, aid) ==> OwnerOk(s, id, aid);
    }
  }

  lemma PostedPc(c: Config, s: State, s': State, aid: AttId)
    requires HolderOk(s, aid, 0) && s'.db == s.db && s'.posts == s.posts + multiset{aid}
    ensures PcOk(c, s', Posting(aid))
  {
  }

  /** The broker's side when an attempt nobody has posted yet is posted. */
  lemma PostedBroker(c: Config, s: State, s': State, aid: AttId, left: bool)
    requires Inv(c, s) && HolderOk(s, aid, 0) && NoTrace(s, aid) && (left ==> s.db.attempts[aid].signed != 0)
    requires s'.db == s.db && s'.orders == s.orders && s'.clock == s.clock && s'.posts == s.posts + multiset{aid}
    requires s'.transit == if left then s.transit + {aid} else s.transit
    ensures BrokerOk(s') && PostsOk(s') && StateEvolves(s, s', {aid})
  {
    hide WorkersOk, Valid;
    forall a: AttId | a in s'.transit ensures TransitOk(s', a) {
      if a != aid { assert TransitOk(s, a); }
    }
    forall id: OrderId, a: AttId | Owns(s'.orders, id, a) ensures OwnerOk(s', id, a) { assert OwnerOk(s, id, a); }
  }

  // ---------------------------------------------------------------- every step, every run

  lemma TouchedExactly(s: State, step: Step)
    ensures Touched(s, step) == if step.Transmit? || step.Record? then HeldBy(s, step.w) else {}
  {
  }

  lemma StepKeeps(c: Config, s: State, step: Step)
    requires Inv(c, s) && Enabled(c, s, step)
    ensures Inv(c, Apply(c, s, step)) && StateEvolves(s, Apply(c, s, step), Touched(s, step))
  {
    hide Inv, StateEvolves, Apply, Enabled, Touched, HeldBy;
    TouchedExactly(s, step);
    if JobStep(step) { JobStepKeeps(c, s, step); }
    else if PassStep(step) { PassStepKeeps(c, s, step); }
    else if OutsideStep(step) { OutsideStepKeeps(c, s, step); }
    else if ProposalStep(step) { ProposalStepKeeps(c, s, step); }
    else if step.MarkAmbiguous? || step.RecordPass? || step.Crash? { SweepKeeps(c, s, step); }
    else { TransmitterKeeps(c, s, step); }
  }

  lemma TransmitterKeeps(c: Config, s: State, step: Step)
    requires Inv(c, s) && Enabled(c, s, step)
    requires step.Return? || step.Record? || step.Refuse? || step.SendTransaction? || step.Transmit?
    ensures var touched := if step.Transmit? || step.Record? then HeldBy(s, step.w) else {};
            Inv(c, Apply(c, s, step)) && StateEvolves(s, Apply(c, s, step), touched)
  {
    hide Inv, StateEvolves, Apply, Enabled, HeldBy;
    match step {
      case Return(w, event) => ReturnKeeps(c, s, w, event);
      case Record(w) => RecordKeeps(c, s, w);
      case Refuse(w) => RefuseKeeps(c, s, w);
      case SendTransaction(w) => SendTransactionKeeps(c, s, w);
      case Transmit(w, left) => TransmitKeeps(c, s, w, left);
    }
  }

  lemma {:induction false} RunKeeps(c: Config, states: seq<State>, steps: seq<Step>, i: nat)
    requires Run(c, states, steps) && i < |states|
    ensures Inv(c, states[i])
  {
    if i > 0 {
      RunKeeps(c, states, steps, i - 1);
      assert Next(c, states[i - 1], steps[i - 1], states[i - 1 + 1]);
      StepKeeps(c, states[i - 1], steps[i - 1]);
    }
  }
}
