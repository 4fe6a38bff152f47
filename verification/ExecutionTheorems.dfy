/** What holds in every run of the execution protocol, whatever the interleaving. */
module ExecutionTheorems {
  import opened Wrappers
  import opened Lifecycle
  import opened Ledger
  import opened Matching
  import opened Protocol
  import opened ExecutionSafety
  import P = Preflight
  import T = Transmission
  import S = LedgerStore

  /** One authorized proposal, at most one broker order: in no run do two orders ever exist that were
      created for the same proposal. */
  lemma AtMostOneOrder(c: Config, states: seq<State>, steps: seq<Step>, i: nat,
                       id: OrderId, other: OrderId, a: AttId, b: AttId)
    requires Run(c, states, steps) && i < |states|
    requires Owns(states[i].orders, id, a) && Owns(states[i].orders, other, b)
    ensures a < |states[i].db.attempts| && b < |states[i].db.attempts|
    ensures states[i].db.attempts[a].proposal == states[i].db.attempts[b].proposal ==> id == other
  {
    RunKeeps(c, states, steps, i);
    assert OwnerOk(states[i], id, a) && OwnerOk(states[i], other, b);
  }

  /** Nothing is resent at any layer: no attempt is transmitted twice, a proposal never has two
      attempts marked sent, and whatever is at the broker or on its way there is marked sent. */
  lemma EachAttemptPostsAtMostOnce(c: Config, states: seq<State>, steps: seq<Step>, i: nat, a: AttId)
    requires Run(c, states, steps) && i < |states|
    ensures states[i].posts[a] <= 1
    ensures SentOnce(states[i].db.attempts)
    ensures !NoTrace(states[i], a) ==> a < |states[i].db.attempts| && states[i].db.attempts[a].sent
  {
    RunKeeps(c, states, steps, i);
    var s := states[i];
    assert a in s.transit ==> TransitOk(s, a);
    assert forall id :: Owns(s.orders, id, a) ==> OwnerOk(s, id, a);
  }

  /** Written before sent: whenever a request is transmitted, the mark and the send time are already
      committed, nothing of the attempt has left before, and this is its only transmission. */
  lemma CommittedBeforePosted(c: Config, states: seq<State>, steps: seq<Step>, i: nat)
    requires Run(c, states, steps) && i < |steps| && steps[i].Transmit? && Enabled(c, states[i], steps[i])
    ensures var aid, s := states[i].workers[steps[i].w].aid, states[i];
            && aid < |s.db.attempts| && s.db.attempts[aid].sent && s.db.attempts[aid].sentAt.Some?
            && NoTrace(s, aid) && s.posts[aid] == 0 && states[i + 1].posts[aid] == 1
  {
    RunStep(c, states, steps, i);
    PostNeedsCommit(c, states[i], steps[i].w, steps[i].left, states[i + 1]);
  }

  lemma PostNeedsCommit(c: Config, s: State, w: WorkerId, left: bool, s': State)
    requires Inv(c, s) && Enabled(c, s, Transmit(w, left)) && s' == Apply(c, s, Transmit(w, left))
    ensures var aid := s.workers[w].aid;
            && aid < |s.db.attempts| && s.db.attempts[aid].sent && s.db.attempts[aid].sentAt.Some?
            && NoTrace(s, aid) && s.posts[aid] == 0 && s'.posts[aid] == 1
  {
    hide Apply, Enabled, BrokerOk, WorkersOk, Valid;
    TransmitFrame(c, s, w, left);
    CommittedHasNoTrace(c, s, w, s.workers[w].aid);
  }

  lemma RunStep(c: Config, states: seq<State>, steps: seq<Step>, i: nat)
    requires Run(c, states, steps) && i < |steps|
    ensures Inv(c, states[i]) && Inv(c, states[i + 1]) && Next(c, states[i], steps[i], states[i + 1])
    ensures StateEvolves(states[i], states[i + 1], Touched(states[i], steps[i]))
  {
    RunKeeps(c, states, steps, i);
    assert Next(c, states[i], steps[i], states[i + 1]);
    StepKeeps(c, states[i], steps[i]);
  }

  lemma AttemptRowStep(c: Config, states: seq<State>, steps: seq<Step>, i: nat, a: AttId)
    requires Run(c, states, steps) && i < |steps| && a < |states[i].db.attempts|
    ensures a < |states[i + 1].db.attempts| && AttemptEvolves(states[i].db.attempts[a], states[i + 1].db.attempts[a])
    ensures a !in Touched(states[i], steps[i]) ==> states[i + 1].db.attempts[a].sent == states[i].db.attempts[a].sent
  {
    RunStep(c, states, steps, i);
  }

  lemma ProposalRowStep(c: Config, states: seq<State>, steps: seq<Step>, i: nat, p: PropId)
    requires Run(c, states, steps) && i < |steps| && p < |states[i].db.proposals|
    ensures p < |states[i + 1].db.proposals| && ProposalEvolves(states[i].db.proposals[p], states[i + 1].db.proposals[p])
  {
    RunStep(c, states, steps, i);
  }

  /** The mark is withdrawn only after proof that nothing left, and for good: an attempt found without
      it is never marked again, and nothing of it ever reaches the broker. */
  lemma {:induction false} UnsentForever(c: Config, states: seq<State>, steps: seq<Step>, i: nat, j: nat, a: AttId)
    requires Run(c, states, steps) && i <= j < |states|
    requires a < |states[i].db.attempts| && !states[i].db.attempts[a].sent
    ensures a < |states[j].db.attempts| && !states[j].db.attempts[a].sent
    ensures NoTrace(states[j], a)
    decreases j
  {
    hide Next, Initial;
    if i < j {
      UnsentForever(c, states, steps, i, j - 1, a);
      AttemptRowStep(c, states, steps, j - 1, a);
    }
    EachAttemptPostsAtMostOnce(c, states, steps, j, a);
  }

  /** There is exactly one retraction point: the only step that ever clears the mark is the recording of
      an answer classified as never transmitted, by the worker that held that attempt. */
  lemma MarkClearedOnlyByRetraction(c: Config, states: seq<State>, steps: seq<Step>, i: nat, a: AttId)
    requires Run(c, states, steps) && i < |steps|
    requires a < |states[i].db.attempts| && states[i].db.attempts[a].sent && a < |states[i + 1].db.attempts|
    requires !states[i + 1].db.attempts[a].sent
    ensures steps[i].Record? && states[i].workers[steps[i].w] == Returned(a, T.NotTransmitted)
    ensures NoTrace(states[i], a)
  {
    RunStep(c, states, steps, i);
    AttemptRowStep(c, states, steps, i, a);
    var s, step := states[i], steps[i];
    var pc := s.workers[step.w];
    assert PcOk(c, s, pc);
    assert step.Record? by {
      var after := Apply(c, s, step);
      assert step.Transmit? ==> after.db == s.db;
    }
    OtherAnswersKeepMark(s.db, a, pc.answer);
  }

  lemma OtherAnswersKeepMark(db: Db, aid: AttId, answer: T.Submission)
    requires Known(db, aid)
    ensures var r := Recorded(db, aid, answer);
            r.Some? && !answer.NotTransmitted? ==> aid < |r.value.attempts| && r.value.attempts[aid].sent == db.attempts[aid].sent
  {
  }

  /** The attempt table is well formed in every reachable state: `ambiguous` says exactly what the
      outcome says, a sent row has its send time, an answered row is a sent one, at most one row per
      proposal is sent, and a proposal's attempt numbers are exactly 1..n. */
  lemma AttemptTableWellFormed(c: Config, states: seq<State>, steps: seq<Step>, i: nat, a: AttId, pid: PropId, k: nat)
    requires Run(c, states, steps) && i < |states|
    ensures a < |states[i].db.attempts| ==>
              && (states[i].db.attempts[a].ambiguous <==> states[i].db.attempts[a].outcome == Ambiguous)
              && (states[i].db.attempts[a].sent ==> states[i].db.attempts[a].sentAt.Some?)
              && (states[i].db.attempts[a].orderId.Some? ==> states[i].db.attempts[a].sent)
              && (states[i].db.attempts[a].outcome.Submitted? ==> states[i].db.attempts[a].sent)
              && (states[i].db.attempts[a].outcome.RejectedByBroker? ==> states[i].db.attempts[a].sent)
    ensures NumberUsed(states[i].db.attempts, pid, k) <==> 1 <= k <= CountOf(states[i].db.attempts, pid)
    ensures forall b :: a < b < |states[i].db.attempts| && states[i].db.attempts[a].proposal == states[i].db.attempts[b].proposal ==>
              && states[i].db.attempts[a].number < states[i].db.attempts[b].number
              && !(states[i].db.attempts[a].sent && states[i].db.attempts[b].sent)
  {
    RunKeeps(c, states, steps, i);
    NumbersAreExactlyOneToN(states[i].db.attempts, pid, k);
    forall b | a < b < |states[i].db.attempts| && states[i].db.attempts[a].proposal == states[i].db.attempts[b].proposal
      ensures states[i].db.attempts[a].number < states[i].db.attempts[b].number
    {
      NumbersIncrease(states[i].db.attempts, a, b);
    }
  }

  /** A finished proposal keeps its status through every later step, whatever is recorded late. */
  lemma {:induction false} FinishedForever(c: Config, states: seq<State>, steps: seq<Step>, i: nat, j: nat, p: PropId)
    requires Run(c, states, steps) && i <= j < |states|
    requires p < |states[i].db.proposals| && Terminal(states[i].db.proposals[p].status)
    ensures p < |states[j].db.proposals| && states[j].db.proposals[p].status == states[i].db.proposals[p].status
    decreases j
  {
    hide Next, Initial;
    if i < j {
      FinishedForever(c, states, steps, i, j - 1, p);
      ProposalRowStep(c, states, steps, j - 1, p);
    }
  }

  /** A refusal never retires a proposal another worker has already transmitted: its row is left as it was. */
  lemma RefusalSparesTransmitted(c: Config, states: seq<State>, steps: seq<Step>, i: nat)
    requires Run(c, states, steps) && i < |steps| && steps[i].Refuse? && Enabled(c, states[i], steps[i])
    requires HasSent(states[i].db.attempts, states[i].workers[steps[i].w].pid)
    ensures states[i + 1].db.proposals == states[i].db.proposals
  {
    hide Valid, BrokerOk, PostsOk, WorkersOk, StateEvolves;
    RunStep(c, states, steps, i);
    SentHasBegun(states[i].db, states[i].workers[steps[i].w].pid);
  }

  lemma SentHasBegun(db: Db, pid: PropId)
    requires Valid(db) && HasSent(db.attempts, pid)
    ensures pid < |db.proposals| && Begun(db.proposals[pid].status)
  {
    var a :| 0 <= a < |db.attempts| && db.attempts[a].proposal == pid && db.attempts[a].sent;
    assert RowsMatch(db);
  }

  /** Exactly when a refusal retires its proposal: the row is still approved, and the job had passed every
      local gate and then been refused by the risk engine on the trade itself. A switch, an expiry, a full
      pending queue, a missing slot or a missing input leaves every proposal row as it was. Otherwise all it
      writes is an unsent, closed attempt of that trade, numbered next. */
  lemma RefusalRetiresExactly(c: Config, states: seq<State>, steps: seq<Step>, i: nat)
    requires Run(c, states, steps) && i < |steps| && steps[i].Refuse? && Enabled(c, states[i], steps[i])
    ensures var pc := states[i].workers[steps[i].w];
            var before, after := states[i].db.proposals, states[i + 1].db.proposals;
            && (after != before <==>
                  && before[pc.pid].status == Approved && pc.refusal.Some?
                  && P.LocalGates(c.settings, pc.row, P.Control(false, false), pc.now, false)
                  && !P.RiskGates(pc.row, pc.refusal.value) && !P.Transient(set r | r in pc.refusal.value.blocked))
            && (after != before ==>
                  after == before[pc.pid := before[pc.pid].(status := Invalidated, version := before[pc.pid].version + 1)])
    ensures var pc, s := states[i].workers[steps[i].w], states[i];
            states[i + 1] == s.(
              workers := s.workers - {steps[i].w},
              db := Db(states[i + 1].db.proposals,
                       s.db.attempts + [Attempt(pc.pid, CountOf(s.db.attempts, pc.pid) + 1, false, None, FailedBeforeSend,
                                                false, None, pc.row.ticker, pc.row.Signed(), 0)],
                       s.db.mirrors))
  {
    hide Inv, StateEvolves, Gated, RefusedTrade;
    RunStep(c, states, steps, i);
    HasPc(c, states[i], steps[i].w);
    hide PcOk, Apply, Enabled;
    RefusalWrites(c, states[i], steps[i].w);
    InvalidatesExactly(c, states[i], steps[i].w);
    RefusalAppends(c, states[i], steps[i].w);
  }

  lemma RefusalAppends(c: Config, s: State, w: WorkerId)
    requires Inv(c, s) && Enabled(c, s, Refuse(w))
    ensures var pc, s' := s.workers[w], Apply(c, s, Refuse(w));
            s' == s.(
              workers := s.workers - {w},
              db := Db(s'.db.proposals,
                       s.db.attempts + [Attempt(pc.pid, CountOf(s.db.attempts, pc.pid) + 1, false, None, FailedBeforeSend,
                                                false, None, pc.row.ticker, pc.row.Signed(), 0)],
                       s.db.mirrors))
  {
    hide Valid, BrokerOk, PostsOk, WorkersOk, RecordRefusal, CountOf;
    var pc := s.workers[w];
    S.RefusalOutcome(s.db, pc.pid, pc.row.ticker, pc.row.Signed(), pc.invalidates);
  }

  lemma RefusalWrites(c: Config, s: State, w: WorkerId)
    requires Enabled(c, s, Refuse(w)) && s.workers[w].pid < |s.db.proposals|
    ensures var pc, before, after := s.workers[w], s.db.proposals, Apply(c, s, Refuse(w)).db.proposals;
            after == if pc.invalidates && before[pc.pid].status == Approved
                     then before[pc.pid := before[pc.pid].(status := Invalidated, version := before[pc.pid].version + 1)]
                     else before
  {
  }

  lemma InvalidatesExactly(c: Config, s: State, w: WorkerId)
    requires w in s.workers && s.workers[w].Refusing? && PcOk(c, s, s.workers[w])
    ensures var pc := s.workers[w];
            pc.pid < |s.db.proposals| &&
            (pc.invalidates <==>
              && pc.refusal.Some? && P.LocalGates(c.settings, pc.row, P.Control(false, false), pc.now, false)
              && !P.RiskGates(pc.row, pc.refusal.value) && !P.Transient(set r | r in pc.refusal.value.blocked))
  {
  }

  /** The verdict a refusing or cleared worker carries is the one its own revalidation got, for a row that
      had passed the local gates with the switches as they were when it was screened. */
  lemma {:induction false} VerdictTraced(c: Config, states: seq<State>, steps: seq<Step>, i: nat, w: WorkerId)
      returns (j: nat, k: nat)
    requires Run(c, states, steps) && i < |states| && w in states[i].workers && HasVerdict(states[i].workers[w])
    ensures j < k < i && steps[j] == Screen(w) && w in states[j].workers && w in states[k].workers
    ensures var pc := states[i].workers[w];
            && steps[k] == Revalidate(w, Some(VerdictOf(pc))) && states[k].workers[w] == Screened(pc.pid, pc.now, pc.row)
            && states[j].workers[w] == Loaded(pc.pid, pc.now, pc.row)
            && P.LocalGates(c.settings, pc.row, states[j].control, pc.now, false)
    ensures forall m :: j <= m <= i ==> w in states[m].workers
  {
    assert i > 0;
    assert Next(c, states[i - 1], steps[i - 1], states[i - 1 + 1]);
    VerdictFrom(c, states[i - 1], steps[i - 1], states[i], w);
    hide Next, Initial;
    if HasVerdict(states[i - 1].workers[w]) {
      j, k := VerdictTraced(c, states, steps, i - 1, w);
    } else {
      k := i - 1;
      j := ScreenTraced(c, states, steps, i - 1, w);
    }
  }

  predicate HasVerdict(pc: Pc) {
    pc.Cleared? || (pc.Refusing? && pc.refusal.Some?)
  }

  function VerdictOf(pc: Pc): P.Revalidation
    requires HasVerdict(pc)
  {
    if pc.Cleared? then pc.verdict else pc.refusal.value
  }

  lemma VerdictFrom(c: Config, s: State, step: Step, s': State, w: WorkerId)
    requires Next(c, s, step, s') && w in s'.workers && HasVerdict(s'.workers[w])
    ensures w in s.workers
    ensures var pc, was := s'.workers[w], s.workers[w];
            if HasVerdict(was) then
              VerdictOf(was) == VerdictOf(pc) && was.pid == pc.pid && was.now == pc.now && was.row == pc.row
            else step == Revalidate(w, Some(VerdictOf(pc))) && was == Screened(pc.pid, pc.now, pc.row)
  {
    hide Conclusions, FactsOf, PendingFound, AllFound, PendingAnswer, HistoryAnswer, Since, Recorded,
      Claim, RecordRefusal, RecordConclusion, RecordAmbiguous, P.LocalGates, P.RiskGates, P.Transient, T.Classify;
  }

  lemma {:induction false} ScreenTraced(c: Config, states: seq<State>, steps: seq<Step>, i: nat, w: WorkerId) returns (j: nat)
    requires Run(c, states, steps) && i < |states| && w in states[i].workers && states[i].workers[w].Screened?
    ensures j < i && steps[j] == Screen(w) && w in states[j].workers
    ensures var pc := states[i].workers[w];
            && states[j].workers[w] == Loaded(pc.pid, pc.now, pc.row)
            && P.LocalGates(c.settings, pc.row, states[j].control, pc.now, false)
    ensures forall m :: j <= m <= i ==> w in states[m].workers
  {
    assert i > 0;
    assert Next(c, states[i - 1], steps[i - 1], states[i - 1 + 1]);
    ScreenedFrom(c, states[i - 1], steps[i - 1], states[i], w);
    hide Next, Initial;
    if states[i - 1].workers[w].Screened? {
      j := ScreenTraced(c, states, steps, i - 1, w);
    } else {
      j := i - 1;
    }
  }

  lemma ScreenedFrom(c: Config, s: State, step: Step, s': State, w: WorkerId)
    requires Next(c, s, step, s') && w in s'.workers && s'.workers[w].Screened?
    ensures w in s.workers
    ensures s.workers[w] == s'.workers[w] ||
            (step == Screen(w) && s.workers[w] == Loaded(s'.workers[w].pid, s'.workers[w].now, s'.workers[w].row)
             && P.LocalGates(c.settings, s'.workers[w].row, s.control, s'.workers[w].now, false))
  {
    hide Conclusions, FactsOf, PendingFound, AllFound, PendingAnswer, HistoryAnswer, Since, Recorded,
      Claim, RecordRefusal, RecordConclusion, RecordAmbiguous;
  }

  /** What a worker records is what its own transmission came back with, by the status code and the body, on
      the rows as they are by then; the recording is refused exactly when the proposal has left flight in the
      meantime, or the mark would be taken from an attempt whose order is known, and then nothing changes. */
  lemma AnswerRecordedExactly(c: Config, states: seq<State>, steps: seq<Step>, i: nat) returns (k: nat, event: T.TransportEvent)
    requires Run(c, states, steps) && i < |steps| && steps[i].Record? && Enabled(c, states[i], steps[i])
    ensures var w, aid := steps[i].w, states[i].workers[steps[i].w].aid;
            k < i && steps[k] == Return(w, event) && w in states[k].workers && states[k].workers[w] == Posting(aid)
    ensures var s, w := states[i], steps[i].w;
            states[i + 1] == s.(workers := s.workers - {w}, db := Answered(s.db, s.workers[w].aid, event))
  {
    hide Inv, Next, StateEvolves, Recorded, T.Classify, Answered;
    RunStep(c, states, steps, i);
    k, event := AnswerTraced(c, states, steps, i, steps[i].w);
    HolderHasBegun(c, states[i], steps[i].w);
    RecordSettles(c, states[i], steps[i], states[i + 1]);
    AnsweredAsClassified(states[i].db, states[i].workers[steps[i].w].aid, event);
  }

  /** The rows an answer leaves, by the status code and the body; the same rows when it is refused. */
  function Answered(db: Db, aid: AttId, event: T.TransportEvent): Db
    requires Known(db, aid)
  {
    var a, p := db.attempts[aid], db.proposals[db.attempts[aid].proposal];
    var parsed := a.signed != 0 && event.Response? && 200 <= event.code <= 299 && event.body.Parsed?;
    var refused := a.signed != 0 && event.Response?
                   && (event.code == 400 || event.code == 401 || event.code == 403 || event.code == 404 || event.code == 422);
    var unsent := !event.WrongEnvironment? && (a.signed == 0 || event.BeforeRequestLine?);
    if (if parsed then event.body.status == Working || InFlight(p.status)
        else if unsent then p.status == Executing && a.orderId.None?
        else InFlight(p.status))
    then Db(
      db.proposals[a.proposal := p.(version := p.version + 1, status :=
        if parsed then
          (if event.body.status == Filled then Executed else if event.body.status == Dead then Failed else p.status)
        else if refused then Failed
        else if unsent then Approved else ExecutionAmbiguous)],
      db.attempts[aid :=
        if parsed then a.(outcome := Submitted, ambiguous := false, orderId := Some(event.body.order))
        else if refused then a.(outcome := RejectedByBroker, ambiguous := false)
        else if unsent then a.(outcome := FailedBeforeSend, ambiguous := false, sent := false, sentAt := None)
        else a.(outcome := Ambiguous, ambiguous := true)],
      if parsed then db.mirrors[event.body.order := aid] else db.mirrors)
    else db
  }

  lemma RecordSettles(c: Config, s: State, step: Step, s': State)
    requires Next(c, s, step, s') && step.Record?
    ensures var r := Recorded(s.db, s.workers[step.w].aid, s.workers[step.w].answer);
            s' == s.(workers := s.workers - {step.w}, db := if r.Some? then r.value else s.db)
  {
    hide Recorded;
  }

  lemma AnsweredAsClassified(db: Db, aid: AttId, event: T.TransportEvent)
    requires Known(db, aid) && RowChecks(db.attempts[aid]) && db.attempts[aid].sent
    requires Begun(db.proposals[db.attempts[aid].proposal].status)
    ensures var r := Recorded(db, aid, T.Classify(db.attempts[aid].signed, event));
            Answered(db, aid, event) == if r.Some? then r.value else db
  {
    hide Recorded, T.Classify;
    var answer := T.Classify(db.attempts[aid].signed, event);
    S.AnswerOutcome(db, aid, answer);
    T.ClassifiedExactly(db.attempts[aid].signed, event);
    assert answer.Acknowledged? ==> answer == T.Acknowledged(answer.order, answer.status);
    assert answer.Rejected? ==> answer == T.Rejected(answer.code);
    assert event.Response? && answer != T.Rejected(event.code) ==> !answer.Rejected?;
  }

  lemma HolderHasBegun(c: Config, s: State, w: WorkerId)
    requires Inv(c, s) && w in s.workers && s.workers[w].Returned?
    ensures var aid := s.workers[w].aid;
            Known(s.db, aid) && RowChecks(s.db.attempts[aid]) && s.db.attempts[aid].sent
            && Begun(s.db.proposals[s.db.attempts[aid].proposal].status)
  {
    HasPc(c, s, w);
  }

  lemma {:induction false} AnswerTraced(c: Config, states: seq<State>, steps: seq<Step>, i: nat, w: WorkerId)
      returns (k: nat, event: T.TransportEvent)
    requires Run(c, states, steps) && i < |states| && w in states[i].workers && states[i].workers[w].Returned?
    ensures var pc := states[i].workers[w];
            && k < i && steps[k] == Return(w, event) && w in states[k].workers && states[k].workers[w] == Posting(pc.aid)
            && pc.aid < |states[i].db.attempts| && pc.answer == T.Classify(states[i].db.attempts[pc.aid].signed, event)
  {
    hide T.Classify, Initial, Inv, Next, StateEvolves;
    assert i > 0 by { NobodyAtFirst(states[0]); }
    RunStep(c, states, steps, i - 1);
    AnswerFrom(c, states[i - 1], steps[i - 1], states[i], w);
    if states[i - 1].workers[w].Returned? {
      k, event := AnswerTraced(c, states, steps, i - 1, w);
      AttemptRowStep(c, states, steps, i - 1, states[i].workers[w].aid);
    } else {
      k, event := i - 1, steps[i - 1].event;
    }
  }

  lemma NobodyAtFirst(s: State)
    requires Initial(s)
    ensures s.workers == map[]
  {
  }

  lemma AnswerFrom(c: Config, s: State, step: Step, s': State, w: WorkerId)
    requires Next(c, s, step, s') && w in s'.workers && s'.workers[w].Returned?
    ensures w in s.workers
    ensures var pc := s'.workers[w];
            && (s.workers[w] == pc ||
                 (step.Return? && step.w == w && s.workers[w] == Posting(pc.aid)
                  && pc.aid < |s'.db.attempts| && pc.answer == T.Classify(s'.db.attempts[pc.aid].signed, step.event)))
  {
    hide Conclusions, FactsOf, PendingFound, AllFound, PendingAnswer, HistoryAnswer, Since, Recorded, T.Classify,
      Claim, RecordRefusal, RecordConclusion, RecordAmbiguous, P.LocalGates, P.RiskGates, P.Transient;
  }

  /** And crash recovery marks the rows ambiguous exactly when the proposal is still in flight. */
  lemma StrandedMarkedExactly(c: Config, states: seq<State>, steps: seq<Step>, i: nat)
    requires Run(c, states, steps) && i < |steps| && steps[i].MarkAmbiguous? && Enabled(c, states[i], steps[i])
    ensures var s, w := states[i], steps[i].w;
            var aid := s.workers[w].aid;
            var a, p := s.db.attempts[aid], s.db.proposals[s.db.attempts[aid].proposal];
            states[i + 1] == s.(
              workers := s.workers - {w},
              db := if !InFlight(p.status) then s.db else Db(
                s.db.proposals[a.proposal := p.(version := p.version + 1, status := ExecutionAmbiguous)],
                s.db.attempts[aid := a.(outcome := Ambiguous, ambiguous := true)],
                s.db.mirrors))
  {
    hide Valid, BrokerOk, PostsOk, WorkersOk, StateEvolves, Next, RowChecks, RecordAmbiguous;
    RunStep(c, states, steps, i);
    MarkSettles(c, states[i], steps[i], states[i + 1]);
    KnownRow(states[i].db, states[i].workers[steps[i].w].aid);
    AmbiguousExactly(states[i].db, states[i].workers[steps[i].w].aid);
  }

  lemma MarkSettles(c: Config, s: State, step: Step, s': State)
    requires Next(c, s, step, s') && step.MarkAmbiguous?
    ensures var r := RecordAmbiguous(s.db, s.workers[step.w].aid);
            s' == s.(workers := s.workers - {step.w}, db := if r.Some? then r.value else s.db)
  {
    hide RecordAmbiguous;
  }

  lemma AmbiguousExactly(db: Db, aid: AttId)
    requires Known(db, aid) && RowChecks(db.attempts[aid])
    ensures var a, r := db.attempts[aid], RecordAmbiguous(db, aid);
            var p := db.proposals[a.proposal];
            && (r.Some? <==> InFlight(p.status))
            && (r.Some? ==>
                  r.value == Db(db.proposals[a.proposal := p.(version := p.version + 1, status := ExecutionAmbiguous)],
                                db.attempts[aid := a.(outcome := Ambiguous, ambiguous := true)], db.mirrors))
  {
  }

  lemma KnownRow(db: Db, aid: AttId)
    requires Valid(db) && aid < |db.attempts|
    ensures RowChecks(db.attempts[aid]) && Known(db, aid)
  {
  }

  /** A reconciliation pass records what its own lookup or its own search concluded, by rereading the rows. */
  lemma {:induction false} PassTraced(c: Config, states: seq<State>, steps: seq<Step>, i: nat, w: WorkerId) returns (k: nat)
    requires Run(c, states, steps) && i < |states| && w in states[i].workers && states[i].workers[w].Concluding?
    ensures var pc := states[i].workers[w];
            && k < i && w in states[k].workers
            && (if pc.searched then
                  && steps[k] == Conclude(w) && states[k].workers[w].HistoryRead? && states[k].workers[w].f == pc.f
                  && pc.result == Conclusions(c, states[k], states[k].workers[w])
                else
                  && steps[k] == Lookup(w, pc.result) && states[k].workers[w] == Searching(pc.f, pc.now)
                  && pc.f.orderId.Some? && !pc.result.OrderNotPlaced? && !pc.result.MultipleCandidates?
                  && (pc.result.OrderFound? ==> pc.result.order == pc.f.orderId.value))
  {
    hide Conclusions;
    assert i > 0;
    assert Next(c, states[i - 1], steps[i - 1], states[i - 1 + 1]);
    ConclusionFrom(c, states[i - 1], steps[i - 1], states[i], w);
    hide Next, Initial;
    if states[i - 1].workers[w].Concluding? {
      k := PassTraced(c, states, steps, i - 1, w);
    } else {
      k := i - 1;
    }
  }

  lemma ConclusionFrom(c: Config, s: State, step: Step, s': State, w: WorkerId)
    requires Next(c, s, step, s') && w in s'.workers && s'.workers[w].Concluding?
    ensures w in s.workers
    ensures var pc, was := s'.workers[w], s.workers[w];
            || was == pc
            || (pc.searched && step == Conclude(w) && was.HistoryRead? && was.f == pc.f && pc.result == Conclusions(c, s, was))
            || (!pc.searched && step == Lookup(w, pc.result) && was == Searching(pc.f, pc.now)
                && pc.f.orderId.Some? && LookupAnswer(s.orders, pc.f.orderId.value, pc.result))
  {
    hide Conclusions, FactsOf, PendingFound, AllFound, PendingAnswer, HistoryAnswer, Since, Recorded, T.Classify,
      Claim, RecordRefusal, RecordConclusion, RecordAmbiguous, P.LocalGates, P.RiskGates, P.Transient, LookupAnswer;
  }

  /** Whatever is assumed of the broker's timing and whatever the checks, an order a search finds is at the
      broker with the attempt's own listing and signed quantity, a market order placed through the API, and
      for an attempt still marked sent it was created within the window around the send. */
  lemma SearchFindsTheTrade(c: Config, states: seq<State>, steps: seq<Step>, i: nat)
    requires Run(c, states, steps) && i < |steps| && steps[i].Conclude? && Enabled(c, states[i], steps[i])
    requires Conclusions(c, states[i], states[i].workers[steps[i].w]).OrderFound?
    ensures var s, pc := states[i], states[i].workers[steps[i].w];
            var r, a := Conclusions(c, s, pc), pc.f.attempt;
            && a < |s.db.attempts| && r.order < |s.orders| && s.orders[r.order].readable
            && s.orders[r.order].ticker == s.db.attempts[a].ticker && s.orders[r.order].signed == s.db.attempts[a].signed
            && s.orders[r.order].byApi && s.orders[r.order].market
            && (s.db.attempts[a].sent ==>
                  s.db.attempts[a].sentAt.Some?
                  && s.db.attempts[a].sentAt.value - c.window <= s.orders[r.order].createdAt <= s.db.attempts[a].sentAt.value + c.window)
  {
    RunKeeps(c, states, steps, i);
    FoundTrade(c, states[i], steps[i].w);
  }

  lemma FoundTrade(c: Config, s: State, w: WorkerId)
    requires Inv(c, s) && Enabled(c, s, Conclude(w)) && Conclusions(c, s, s.workers[w]).OrderFound?
    ensures var pc := s.workers[w];
            var r, a := Conclusions(c, s, pc), pc.f.attempt;
            && a < |s.db.attempts| && r.order < |s.orders| && s.orders[r.order].readable
            && s.orders[r.order].ticker == s.db.attempts[a].ticker && s.orders[r.order].signed == s.db.attempts[a].signed
            && s.orders[r.order].byApi && s.orders[r.order].market
            && (s.db.attempts[a].sent ==>
                  s.db.attempts[a].sentAt.Some?
                  && s.db.attempts[a].sentAt.value - c.window <= s.orders[r.order].createdAt <= s.db.attempts[a].sentAt.value + c.window)
  {
    hide BrokerOk, Valid;
    HasPc(c, s, w);
    var pc := s.workers[w];
    var cands := Candidates(pc.found, pc.f.ticker, pc.since, Until(c, pc.f, pc.now));
    FoundMeans(cands, pc.f, ClaimedElsewhere(s.db.mirrors, pc.f.attempt), pc.ok, c.settle, pc.now);
    assert ViewOk(s.orders, Conclusions(c, s, pc).order, pc.found[Conclusions(c, s, pc).order]);
  }

  /** Whenever an attempt is committed as sent, the row it is committed for is the very row whose
      preflight passed every gate and the row the risk engine re-read; it had not expired at the job's
      instant, no switch was on when the claim looked, and the request carries that row's trade. */
  lemma SentOnlyAfterPreflight(c: Config, states: seq<State>, steps: seq<Step>, i: nat)
    requires Run(c, states, steps) && i < |steps| && steps[i].SendTransaction?
    requires states[i + 1].db != states[i].db
    ensures var pc, s := states[i].workers[steps[i].w], states[i];
            && pc.Cleared? && pc.pid < |s.db.proposals|
            && pc.row == s.db.proposals[pc.pid] && pc.again == pc.row
            && P.LocalGates(c.settings, pc.row, s.control, pc.now, false) && P.RiskGates(pc.row, pc.verdict)
            && !HasSent(s.db.attempts, pc.pid) && pc.now <= s.clock
            && |states[i + 1].db.attempts| == |s.db.attempts| + 1
            && var a := states[i + 1].db.attempts[|s.db.attempts|];
               a.sent && a.sentAt == Some(pc.now) && a.proposal == pc.pid && a.ticker == pc.row.ticker && a.signed == pc.row.Signed()
  {
    RunStep(c, states, steps, i);
    SendNeedsPreflight(c, states[i], steps[i].w, states[i + 1]);
  }

  lemma SendNeedsPreflight(c: Config, s: State, w: WorkerId, s': State)
    requires Inv(c, s) && Next(c, s, SendTransaction(w), s') && s'.db != s.db
    ensures var pc := s.workers[w];
            && pc.Cleared? && pc.pid < |s.db.proposals|
            && pc.row == s.db.proposals[pc.pid] && pc.again == pc.row
            && P.LocalGates(c.settings, pc.row, s.control, pc.now, false) && P.RiskGates(pc.row, pc.verdict)
            && !HasSent(s.db.attempts, pc.pid) && pc.now <= s.clock
            && |s'.db.attempts| == |s.db.attempts| + 1
            && var a := s'.db.attempts[|s.db.attempts|];
               a.sent && a.sentAt == Some(pc.now) && a.proposal == pc.pid && a.ticker == pc.row.ticker && a.signed == pc.row.Signed()
  {
    hide Inv, HasSent, Highest;
    HasPc(c, s, w);
  }
}
