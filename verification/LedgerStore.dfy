/** The tables themselves, updated in place. Each method is one write transaction of the execution and
    reconciliation services, run field by field as the code runs it, and proved against the ledger
    function of the same name: it commits exactly what the function commits, and when the code raises
    or a constraint refuses the flush, the tables are as they were. */
module LedgerStore {
  import opened Wrappers
  import opened Lifecycle
  import L = Ledger
  import opened Transmission
  import P = Protocol

  /** The committed value, or the value before when the transaction rolled back. */
  function Settled(before: L.Db, r: Option<L.Db>): L.Db {
    if r.Some? then r.value else before
  }

  class Store {
    var proposals: seq<L.Proposal>
    var attempts: seq<L.Attempt>
    var mirrors: map<L.OrderId, L.AttId>

    ghost function Contents(): L.Db
      reads this
    {
      L.Db(proposals, attempts, mirrors)
    }

    predicate Has(aid: L.AttId)
      reads this
    {
      aid < |attempts| && attempts[aid].proposal < |proposals|
    }

    constructor ()
      ensures Contents() == L.Db([], [], map[]) && L.Valid(Contents())
    {
      proposals, attempts, mirrors := [], [], map[];
    }

    /** Flushes the staged rows. The CHECK constraints have the last word. */
    method Flush(aid: L.AttId, attempt: L.Attempt, proposal: L.Proposal, mirror: Option<L.OrderId>) returns (ok: bool)
      requires Has(aid) && attempt.proposal == attempts[aid].proposal
      modifies this
      ensures ok == L.RowChecks(attempt)
      ensures !ok ==> Contents() == old(Contents())
      ensures ok ==>
                && attempts == old(attempts)[aid := attempt]
                && proposals == old(proposals)[attempt.proposal := proposal]
                && mirrors == if mirror.Some? then old(mirrors)[mirror.value := aid] else old(mirrors)
    {
      ok := L.RowChecks(attempt);
      if ok {
        attempts := attempts[aid := attempt];
        proposals := proposals[attempt.proposal := proposal];
        if mirror.Some? { mirrors := mirrors[mirror.value := aid]; }
      }
    }

    /** Records "bytes may have left" before they can. */
    method ClaimAndMarkSent(pid: L.PropId, observed: nat, ticker: string, signed: int, halted: bool, now: int)
      returns (claim: Option<L.AttId>)
      requires pid < |proposals|
      modifies this
      ensures var r := L.Claim(old(Contents()), pid, observed, ticker, signed, halted, now);
              && Contents() == Settled(old(Contents()), r)
              && claim == if r.Some? then Some(|old(attempts)|) else None
    {
      var locked := proposals[pid];
      if locked.version != observed { return None; }
      if !Executable(locked.status) || locked.expiresAt <= now { return None; }
      if L.HasSent(attempts, pid) { return None; }
      if halted { return None; }
      var number := L.Highest(attempts, pid) + 1;
      var attempt := L.Attempt(pid, number, true, Some(now), L.Pending, false, None, ticker, signed, 0);
      locked := locked.Moved(Executing);
      attempts := attempts + [attempt];
      proposals := proposals[pid := locked];
      claim := Some(|attempts| - 1);
    }

    method RecordSuccess(aid: L.AttId, order: L.OrderId, status: L.OrderStatus) returns (ok: bool)
      requires Has(aid)
      modifies this
      ensures var r := L.RecordSuccess(old(Contents()), aid, order, status);
              ok == r.Some? && Contents() == Settled(old(Contents()), r)
    {
      var attempt := attempts[aid];
      var proposal := proposals[attempt.proposal];
      attempt := attempt.(outcome := L.Submitted);
      attempt := attempt.(ambiguous := false);
      attempt := attempt.(orderId := Some(order));
      if status == L.Filled {
        if !CanTransition(proposal.status, Executed) { return false; }
        proposal := proposal.(status := Executed);
      } else if status == L.Dead {
        if !CanTransition(proposal.status, Failed) { return false; }
        proposal := proposal.(status := Failed);
      }
      proposal := proposal.(version := proposal.version + 1);
      ok := Flush(aid, attempt, proposal, Some(order));
    }

    method RecordRejection(aid: L.AttId) returns (ok: bool)
      requires Has(aid)
      modifies this
      ensures var r := L.RecordRejection(old(Contents()), aid);
              ok == r.Some? && Contents() == Settled(old(Contents()), r)
    {
      var attempt := attempts[aid];
      var proposal := proposals[attempt.proposal];
      attempt := attempt.(outcome := L.RejectedByBroker);
      attempt := attempt.(ambiguous := false);
      if !CanTransition(proposal.status, Failed) { return false; }
      ok := Flush(aid, attempt, proposal.Moved(Failed), None);
    }

    /** The one place the mark is ever cleared. */
    method RetractUnsent(aid: L.AttId) returns (ok: bool)
      requires Has(aid)
      modifies this
      ensures var r := L.RetractUnsent(old(Contents()), aid);
              ok == r.Some? && Contents() == Settled(old(Contents()), r)
    {
      var attempt := attempts[aid];
      var proposal := proposals[attempt.proposal];
      attempt := attempt.(sent := false);
      attempt := attempt.(sentAt := None);
      attempt := attempt.(outcome := L.FailedBeforeSend);
      attempt := attempt.(ambiguous := false);
      if !CanTransition(proposal.status, Approved) { return false; }
      ok := Flush(aid, attempt, proposal.Moved(Approved), None);
    }

    method RecordAmbiguous(aid: L.AttId) returns (ok: bool)
      requires Has(aid)
      modifies this
      ensures var r := L.RecordAmbiguous(old(Contents()), aid);
              ok == r.Some? && Contents() == Settled(old(Contents()), r)
    {
      var attempt := attempts[aid];
      var proposal := proposals[attempt.proposal];
      attempt := attempt.(outcome := L.Ambiguous);
      attempt := attempt.(ambiguous := true);
      if !proposal.status.ExecutionAmbiguous? {
        if !CanTransition(proposal.status, ExecutionAmbiguous) { return false; }
        proposal := proposal.(status := ExecutionAmbiguous);
      }
      proposal := proposal.(version := proposal.version + 1);
      ok := Flush(aid, attempt, proposal, None);
    }

    method RecordRefusal(pid: L.PropId, ticker: string, signed: int, invalidates: bool)
      requires pid < |proposals|
      modifies this
      ensures Contents() == L.RecordRefusal(old(Contents()), pid, ticker, signed, invalidates)
    {
      var proposal := proposals[pid];
      var number := L.Highest(attempts, pid) + 1;
      attempts := attempts + [L.Attempt(pid, number, false, None, L.FailedBeforeSend, false, None, ticker, signed, 0)];
      if invalidates && Executable(proposal.status) {
        proposal := proposal.Moved(Invalidated);
        proposals := proposals[pid := proposal];
      }
    }

    /** Persists the conclusion of one reconciliation pass. */
    method RecordConclusion(aid: L.AttId, result: L.Conclusion) returns (ok: bool)
      requires Has(aid)
      modifies this
      ensures var r := L.RecordConclusion(old(Contents()), aid, result);
              ok == r.Some? && Contents() == Settled(old(Contents()), r)
    {
      var attempt := attempts[aid];
      var proposal := proposals[attempt.proposal];
      var mirror: Option<L.OrderId> := None;
      attempt := attempt.(passes := attempt.passes + 1);
      if result.OrderFound? {
        attempt := attempt.(orderId := Some(result.order));
        attempt := attempt.(outcome := if result.status == L.Filled then L.ReconciledFilled else L.Submitted);
        attempt := attempt.(ambiguous := false);
        mirror := Some(result.order);
        if result.status == L.Filled && CanTransition(proposal.status, Executed) {
          proposal := proposal.(status := Executed);
        } else if result.status == L.Dead && CanTransition(proposal.status, Failed) {
          proposal := proposal.(status := Failed);
        }
        proposal := proposal.(version := proposal.version + 1);
      } else if result.OrderNotPlaced? {
        attempt := attempt.(outcome := L.ReconciledNotPlaced);
        attempt := attempt.(ambiguous := false);
        if CanTransition(proposal.status, Failed) { proposal := proposal.Moved(Failed); }
      }
      ok := Flush(aid, attempt, proposal, mirror);
    }

    /** What the worker that transmitted does with the answer. */
    method Record(aid: L.AttId, answer: Submission) returns (ok: bool)
      requires Has(aid)
      modifies this
      ensures var r := P.Recorded(old(Contents()), aid, answer);
              ok == r.Some? && Contents() == Settled(old(Contents()), r)
    {
      match answer {
        case NotTransmitted => ok := RetractUnsent(aid);
        case Rejected(_) => ok := RecordRejection(aid);
        case Unknown(_) => ok := RecordAmbiguous(aid);
        case Acknowledged(order, status) => ok := RecordSuccess(aid, order, status);
      }
    }

    /** The tail of one execution job, uninterrupted. It posts exactly when the row is the one preflight
        saw, still approved and unexpired, untransmitted, and no switch is on; otherwise nothing changes.
        What it leaves behind follows from what came back, by the status code and the body. */
    method TransmitAndRecord(pid: L.PropId, observed: nat, ticker: string, signed: int, halted: bool, now: int,
                             event: TransportEvent)
      returns (posts: nat)
      requires L.Valid(Contents()) && pid < |proposals|
      modifies this
      ensures posts <= 1
      ensures posts == 1 <==>
                var p := old(proposals)[pid];
                p.version == observed && p.status == Approved && now < p.expiresAt && !L.HasSent(old(attempts), pid) && !halted
      ensures posts == 0 ==> Contents() == old(Contents())
      ensures posts == 1 ==>
                var aid := |old(attempts)|;
                var parsed := signed != 0 && event.Response? && 200 <= event.code <= 299 && event.body.Parsed?;
                var refused := signed != 0 && event.Response?
                               && (event.code == 400 || event.code == 401 || event.code == 403 || event.code == 404 || event.code == 422);
                var unsent := !event.WrongEnvironment? && (signed == 0 || event.BeforeRequestLine?);
                && |attempts| == aid + 1 && attempts[..aid] == old(attempts) && |proposals| == |old(proposals)|
                && attempts[aid].proposal == pid
                && (attempts[aid].sent <==> !unsent)
                && attempts[aid].orderId == (if parsed then Some(event.body.order) else None)
                && mirrors == (if parsed then old(mirrors)[event.body.order := aid] else old(mirrors))
                && attempts[aid].outcome ==
                     (if parsed then L.Submitted else if refused then L.RejectedByBroker
                      else if unsent then L.FailedBeforeSend else L.Ambiguous)
                && proposals[pid].status ==
                     (if parsed then
                        (if event.body.status == L.Filled then Executed else if event.body.status == L.Dead then Failed else Executing)
                      else if refused then Failed
                      else if unsent then Approved else ExecutionAmbiguous)
    {
      hide L.Valid, L.HasSent, L.Highest, L.CountOf, P.Recorded, Classify;
      posts := 0;
      ghost var before := Contents();
      ClaimOutcome(before, pid, observed, ticker, signed, halted, now);
      ClassifiedExactly(signed, event);
      var claim := ClaimAndMarkSent(pid, observed, ticker, signed, halted, now);
      if claim.Some? {
        posts := posts + 1;
        JobOutcome(before, pid, observed, ticker, signed, halted, now, Classify(signed, event));
        var answer := Classify(signed, event);
        assert answer.Acknowledged? ==> answer == Acknowledged(answer.order, answer.status);
        assert answer.Rejected? ==> answer == Submission.Rejected(answer.code);
        assert event.Response? && answer != Submission.Rejected(event.code) ==> !answer.Rejected?;
        var _ := Record(claim.value, answer);
      }
    }

    /** Marks every stranded attempt ambiguous. The first one that cannot be recorded raises out of the
        sweep, so it does all of its work exactly when every stranded attempt's proposal may still
        become ambiguous, and then returns how many there were; otherwise it has marked those before the
        one that failed. */
    method RecoverIncomplete(cutoff: int) returns (recovered: nat, ok: bool)
      requires L.Valid(Contents())
      modifies this
      ensures L.Valid(Contents())
      ensures ok <==> forall a :: 0 <= a < |old(attempts)| ==> Recoverable(old(Contents()), a, cutoff)
      ensures ok ==> SweptTo(old(Contents()), Contents(), |old(attempts)|, cutoff)
                     && recovered == StrandedIn(old(attempts), |old(attempts)|, cutoff)
      ensures !ok ==> exists a :: 0 <= a < |old(attempts)| && !Recoverable(old(Contents()), a, cutoff)
                                    && SweptTo(old(Contents()), Contents(), a, cutoff)
                                    && recovered == StrandedIn(old(attempts), a, cutoff)
    {
      hide SweptTo, Recoverable, L.Valid;
      recovered, ok := 0, true;
      ghost var before := Contents();
      SweptNothing(before, cutoff);
      var n := |attempts|;
      for a := 0 to n
        invariant L.Valid(Contents()) && SweptTo(before, Contents(), a, cutoff) && ok && |attempts| == n
        invariant forall k :: 0 <= k < a ==> Recoverable(before, k, cutoff)
        invariant recovered == StrandedIn(before.attempts, a, cutoff)
      {
        SweepStep(before, Contents(), a, cutoff);
        if Stranded(attempts[a], cutoff) {
          L.AmbiguousKeepsValid(Contents(), a);
          ok := RecordAmbiguous(a);
          if !ok { return; }
          recovered := recovered + 1;
        }
      }
    }
  }

  predicate Stranded(a: L.Attempt, cutoff: int) {
    a.sent && a.outcome == L.Pending && a.sentAt.Some? && a.sentAt.value < cutoff
  }

  /** How many of the first `n` attempts are stranded. */
  function StrandedIn(attempts: seq<L.Attempt>, n: nat, cutoff: int): nat
    requires n <= |attempts|
  {
    if n == 0 then 0 else StrandedIn(attempts, n - 1, cutoff) + (if Stranded(attempts[n - 1], cutoff) then 1 else 0)
  }

  predicate MayBecomeAmbiguous(s: Status) {
    s == ExecutionAmbiguous || CanTransition(s, ExecutionAmbiguous)
  }

  ghost predicate Recoverable(db: L.Db, a: L.AttId, cutoff: int) {
    a < |db.attempts| && db.attempts[a].proposal < |db.proposals| &&
    (Stranded(db.attempts[a], cutoff) ==> MayBecomeAmbiguous(db.proposals[db.attempts[a].proposal].status))
  }

  function Marked(a: L.Attempt, cutoff: int): L.Attempt {
    if Stranded(a, cutoff) then a.(outcome := L.Ambiguous, ambiguous := true) else a
  }

  /** `db` is `before` with the stranded ones among the first `n` attempts marked, and their proposals
      ambiguous. */
  ghost predicate SweptTo(before: L.Db, db: L.Db, n: nat, cutoff: int) {
    && |db.attempts| == |before.attempts| && |db.proposals| == |before.proposals| && db.mirrors == before.mirrors
    && n <= |db.attempts|
    && (forall k :: 0 <= k < n ==> db.attempts[k] == Marked(before.attempts[k], cutoff))
    && (forall k :: n <= k < |db.attempts| ==> db.attempts[k] == before.attempts[k])
    && (forall p :: 0 <= p < |db.proposals| ==>
          db.proposals[p] == before.proposals[p] ||
          exists k :: 0 <= k < n && before.attempts[k].proposal == p && Stranded(before.attempts[k], cutoff)
                      && db.proposals[p] == before.proposals[p].Moved(ExecutionAmbiguous))
  }

  lemma SweptNothing(db: L.Db, cutoff: int)
    ensures SweptTo(db, db, 0, cutoff)
  {
  }

  /** A proposal has one sent attempt, so marking one stranded attempt never touches another's row. */
  lemma SweepStep(before: L.Db, db: L.Db, a: L.AttId, cutoff: int)
    requires L.Valid(before) && L.Valid(db) && SweptTo(before, db, a, cutoff) && a < |before.attempts|
    ensures db.attempts[a] == before.attempts[a] && P.Known(db, a)
    ensures !Stranded(before.attempts[a], cutoff) ==> Recoverable(before, a, cutoff) && SweptTo(before, db, a + 1, cutoff)
    ensures Stranded(before.attempts[a], cutoff) ==>
              && (L.RecordAmbiguous(db, a).Some? <==> Recoverable(before, a, cutoff))
              && (L.RecordAmbiguous(db, a).Some? ==> SweptTo(before, L.RecordAmbiguous(db, a).value, a + 1, cutoff))
  {
    hide L.Numbered, L.OneActivePerTicker, L.FlightHasSender;
    if Stranded(before.attempts[a], cutoff) {
      var p := before.attempts[a].proposal;
      assert db.proposals[p] == before.proposals[p];
      assert L.RowChecks(before.attempts[a]);
      var r := L.RecordAmbiguous(db, a);
      if r.Some? {
        assert r.value.proposals[p] == before.proposals[p].Moved(ExecutionAmbiguous);
      }
    }
  }

  /** The claim commits exactly when the row is the one preflight saw, approved, unexpired, untransmitted
      and not halted. It inserts a pending attempt marked sent, numbered next, and moves the proposal. */
  lemma ClaimOutcome(db: L.Db, pid: L.PropId, observed: nat, ticker: string, signed: int, halted: bool, now: int)
    requires L.Valid(db) && pid < |db.proposals|
    ensures var r := L.Claim(db, pid, observed, ticker, signed, halted, now);
            var p := db.proposals[pid];
            && (r.Some? <==> p.version == observed && p.status == Approved && now < p.expiresAt && !L.HasSent(db.attempts, pid) && !halted)
            && (r.Some? ==>
                  r.value == L.Db(db.proposals[pid := p.(status := Executing, version := p.version + 1)],
                                  db.attempts + [L.Attempt(pid, L.CountOf(db.attempts, pid) + 1, true, Some(now), L.Pending,
                                                           false, None, ticker, signed, 0)],
                                  db.mirrors))
  {
    L.HighestIsCount(db.attempts, pid);
    hide L.Valid, L.HasSent, L.Highest, L.CountOf;
  }

  /** A refusal leaves an unsent, closed attempt, numbered next, and retires an approved proposal when told to. */
  lemma RefusalOutcome(db: L.Db, pid: L.PropId, ticker: string, signed: int, invalidates: bool)
    requires L.Valid(db) && pid < |db.proposals|
    ensures var d := L.RecordRefusal(db, pid, ticker, signed, invalidates);
            var p := db.proposals[pid];
            && d.attempts == db.attempts + [L.Attempt(pid, L.CountOf(db.attempts, pid) + 1, false, None, L.FailedBeforeSend,
                                                      false, None, ticker, signed, 0)]
            && d.mirrors == db.mirrors
            && d.proposals == (if invalidates && p.status == Approved
                               then db.proposals[pid := p.(status := Invalidated, version := p.version + 1)] else db.proposals)
            && !P.Unresolved(d.attempts[|db.attempts|].outcome)
  {
    L.HighestIsCount(db.attempts, pid);
    hide L.Valid, L.Highest, L.CountOf;
  }

  /** What recording the answer of a transmitted attempt writes, column by column, and exactly when it is
      not refused: whenever the proposal may still make the move. */
  lemma AnswerOutcome(db: L.Db, aid: L.AttId, answer: Submission)
    requires P.Known(db, aid) && L.RowChecks(db.attempts[aid]) && db.attempts[aid].sent
    requires Begun(db.proposals[db.attempts[aid].proposal].status)
    ensures var a, r := db.attempts[aid], P.Recorded(db, aid, answer);
            var p := db.proposals[a.proposal];
            && (r.Some? <==>
                  match answer
                  case Acknowledged(_, status) => status == L.Working || InFlight(p.status)
                  case Rejected(_) => InFlight(p.status)
                  case NotTransmitted => p.status == Executing && a.orderId.None?
                  case Unknown(_) => InFlight(p.status))
            && (r.Some? ==>
                  r.value == L.Db(
                    db.proposals[a.proposal := p.(version := p.version + 1, status :=
                      match answer
                      case Acknowledged(_, status) =>
                        if status == L.Filled then Executed else if status == L.Dead then Failed else p.status
                      case Rejected(_) => Failed
                      case NotTransmitted => Approved
                      case Unknown(_) => ExecutionAmbiguous)],
                    db.attempts[aid :=
                      match answer
                      case Acknowledged(order, _) => a.(outcome := L.Submitted, ambiguous := false, orderId := Some(order))
                      case Rejected(_) => a.(outcome := L.RejectedByBroker, ambiguous := false)
                      case NotTransmitted => a.(outcome := L.FailedBeforeSend, ambiguous := false, sent := false, sentAt := None)
                      case Unknown(_) => a.(outcome := L.Ambiguous, ambiguous := true)],
                    if answer.Acknowledged? then db.mirrors[answer.order := aid] else db.mirrors))
  {
  }

  /** What one uninterrupted job leaves behind, by what its transmission came back as: the claimed attempt
      and its proposal, column by column, with nothing else touched. No recording is refused. An order
      that may exist stays one a reconciliation pass reads; a closed attempt never is. */
  lemma JobOutcome(db: L.Db, pid: L.PropId, observed: nat, ticker: string, signed: int, halted: bool, now: int, answer: Submission)
    requires L.Valid(db) && pid < |db.proposals|
    requires L.Claim(db, pid, observed, ticker, signed, halted, now).Some?
    ensures var claimed := L.Claim(db, pid, observed, ticker, signed, halted, now).value;
            var aid, p := |db.attempts|, db.proposals[pid];
            var row := L.Attempt(pid, L.CountOf(db.attempts, pid) + 1, true, Some(now), L.Pending, false, None, ticker, signed, 0);
            && P.Known(claimed, aid) && claimed.attempts == db.attempts + [row]
            && P.Recorded(claimed, aid, answer).Some?
            && var after := P.Recorded(claimed, aid, answer).value;
               && after.attempts == db.attempts + [
                    match answer
                    case Acknowledged(order, _) => row.(outcome := L.Submitted, orderId := Some(order))
                    case Rejected(_) => row.(outcome := L.RejectedByBroker)
                    case NotTransmitted => row.(outcome := L.FailedBeforeSend, sent := false, sentAt := None)
                    case Unknown(_) => row.(outcome := L.Ambiguous, ambiguous := true)]
               && after.proposals == db.proposals[pid := p.(version := p.version + 2, status :=
                    match answer
                    case Acknowledged(_, status) =>
                      if status == L.Filled then Executed else if status == L.Dead then Failed else Executing
                    case Rejected(_) => Failed
                    case NotTransmitted => Approved
                    case Unknown(_) => ExecutionAmbiguous)]
               && after.mirrors == (if answer.Acknowledged? then db.mirrors[answer.order := aid] else db.mirrors)
               && (P.Unresolved(after.attempts[aid].outcome) <==> answer.Acknowledged? || answer.Unknown?)
  {
    hide L.Valid, L.HasSent, L.CountOf, L.Claim, P.Recorded;
    ClaimOutcome(db, pid, observed, ticker, signed, halted, now);
    var claimed := L.Claim(db, pid, observed, ticker, signed, halted, now).value;
    var aid := |db.attempts|;
    assert claimed.attempts[aid].sent;
    AnswerOutcome(claimed, aid, answer);
    var after := P.Recorded(claimed, aid, answer).value;
    assert after.attempts == db.attempts + [after.attempts[aid]];
    assert after.proposals == db.proposals[pid := after.proposals[pid]];
  }

  /** What recording one pass writes, column by column, whatever became of the attempt meanwhile: refused only
      when it found an order for an attempt that lost its mark, and otherwise always counted. The proposal is
      executed or failed exactly when it may still be and the conclusion says the order filled, or is dead or
      absent. A found order that is not filled stays one a later pass reads. */
  lemma PassOutcome(db: L.Db, aid: L.AttId, result: L.Conclusion)
    requires L.Valid(db) && aid < |db.attempts|
    ensures P.Known(db, aid)
    ensures L.RecordConclusion(db, aid, result).Some? <==> (result.OrderFound? ==> db.attempts[aid].sent)
    ensures var a := db.attempts[aid];
            var p, r := db.proposals[a.proposal], L.RecordConclusion(db, aid, result);
            r.Some? ==>
              && r.value.attempts == db.attempts[aid :=
                   match result
                   case OrderFound(order, status) =>
                     a.(passes := a.passes + 1, orderId := Some(order), ambiguous := false,
                        outcome := if status == L.Filled then L.ReconciledFilled else L.Submitted)
                   case OrderNotPlaced => a.(passes := a.passes + 1, ambiguous := false, outcome := L.ReconciledNotPlaced)
                   case _ => a.(passes := a.passes + 1)]
              && r.value.mirrors == (if result.OrderFound? then db.mirrors[result.order := aid] else db.mirrors)
              && |r.value.proposals| == |db.proposals|
              && (forall q :: 0 <= q < |db.proposals| && q != a.proposal ==> r.value.proposals[q] == db.proposals[q])
              && r.value.proposals[a.proposal] == p.(version := r.value.proposals[a.proposal].version, status :=
                   match result
                   case OrderFound(_, status) =>
                     if status == L.Filled && InFlight(p.status) then Executed
                     else if status == L.Dead && InFlight(p.status) then Failed
                     else p.status
                   case OrderNotPlaced =>
                     if p.status == Draft || p.status == ApprovalPending || p.status == Approved || InFlight(p.status) then Failed
                     else p.status
                   case _ => p.status)
              && (P.Unresolved(r.value.attempts[aid].outcome) <==>
                   match result
                   case OrderFound(_, status) => status != L.Filled
                   case OrderNotPlaced => false
                   case _ => P.Unresolved(a.outcome))
  {
    hide L.Numbered, L.OneActivePerTicker, L.FlightHasSender, L.SentOnce;
    assert L.RowChecks(db.attempts[aid]);
    assert db.attempts[aid].sent ==> Begun(db.proposals[db.attempts[aid].proposal].status);
  }

  /** The crash sweep, column by column. */
  lemma SweptExactly(before: L.Db, db: L.Db, n: nat, cutoff: int, k: L.AttId)
    requires SweptTo(before, db, n, cutoff) && k < |before.attempts|
    ensures var a := before.attempts[k];
            db.attempts[k] ==
              if k < n && a.sent && a.outcome == L.Pending && a.sentAt.Some? && a.sentAt.value < cutoff
              then a.(outcome := L.Ambiguous, ambiguous := true) else a
  {
  }
}
