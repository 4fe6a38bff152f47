/** The trade-proposal state machine: the legal status moves and the status sets derived from them. */
module Lifecycle {

  datatype Status =
    | Draft | Ready | Notified | ApprovalPending | Approved | Rejected | Expired
    | Executing | Executed | ExecutionAmbiguous | Failed | Cancelled | Invalidated

  predicate CanTransition(current: Status, target: Status) {
    match current
    case Draft => target.Ready? || target.Cancelled? || target.Failed? || target.Invalidated?
    case Ready =>
      || target.Notified? || target.ApprovalPending? || target.Approved? || target.Rejected?
      || target.Expired? || target.Cancelled? || target.Invalidated?
    case Notified =>
      || target.ApprovalPending? || target.Approved? || target.Rejected?
      || target.Expired? || target.Cancelled? || target.Invalidated?
    case ApprovalPending =>
      || target.Approved? || target.Notified? || target.Rejected? || target.Expired?
      || target.Cancelled? || target.Failed? || target.Invalidated?
    case Approved =>
      target.Executing? || target.Expired? || target.Cancelled? || target.Failed? || target.Invalidated?
    case Executing => target.Executed? || target.Failed? || target.ExecutionAmbiguous? || target.Approved?
    case ExecutionAmbiguous => target.Executed? || target.Failed? || target.Cancelled?
    case _ => false
  }

  predicate Terminal(s: Status) {
    s.Executed? || s.Rejected? || s.Expired? || s.Failed? || s.Cancelled? || s.Invalidated?
  }

  predicate Executable(s: Status) {
    s.Approved?
  }

  /** An order may exist at the broker. */
  predicate InFlight(s: Status) {
    s.Executing? || s.ExecutionAmbiguous?
  }

  predicate PreExecution(s: Status) {
    s.Draft? || s.Ready? || s.Notified? || s.ApprovalPending? || s.Approved?
  }

  /** The statuses that occupy the instrument and reserve exposure. */
  predicate Active(s: Status) {
    PreExecution(s) || InFlight(s)
  }

  /** Where a proposal can be once one of its attempts is marked sent. */
  predicate Begun(s: Status) {
    InFlight(s) || s.Executed? || s.Failed? || s.Cancelled?
  }

  ghost predicate Path(path: seq<Status>) {
    forall i :: 0 <= i < |path| - 1 ==> CanTransition(path[i], path[i + 1])
  }

  /** Nothing leaves a terminal status, and only terminal statuses have no way out. */
  lemma TerminalIsFinal(s: Status)
    ensures Terminal(s) <==> forall t :: !CanTransition(s, t)
  {
    if !Terminal(s) {
      var t := if s == Draft then Ready else if s == Executing then Approved
               else if s == ExecutionAmbiguous then Executed else Cancelled;
      assert CanTransition(s, t);
    }
  }

  /** Ambiguity is only resolved forward: no sequence of legal moves takes an ambiguous proposal
      back to a status from which it could be transmitted. */
  lemma {:induction false} AmbiguityNeverReopens(path: seq<Status>, k: nat)
    requires Path(path) && k < |path| && path[0] == ExecutionAmbiguous
    ensures path[k].ExecutionAmbiguous? || path[k].Executed? || path[k].Failed? || path[k].Cancelled?
  {
    if k > 0 {
      AmbiguityNeverReopens(path, k - 1);
      assert CanTransition(path[k - 1], path[k - 1 + 1]);
    }
  }

  /** Where each status is entered from: the machine read backwards. */
  lemma EnteredOnlyFrom(s: Status)
    ensures !CanTransition(s, Draft)
    ensures CanTransition(s, Ready) <==> s == Draft
    ensures CanTransition(s, Notified) <==> s == Ready || s == ApprovalPending
    ensures CanTransition(s, ApprovalPending) <==> s == Ready || s == Notified
    ensures CanTransition(s, Approved) <==> s == Ready || s == Notified || s == ApprovalPending || s == Executing
    ensures CanTransition(s, Rejected) <==> s == Ready || s == Notified || s == ApprovalPending
    ensures CanTransition(s, Expired) <==> s == Ready || s == Notified || s == ApprovalPending || s == Approved
    ensures CanTransition(s, Executing) <==> s == Approved
    ensures CanTransition(s, ExecutionAmbiguous) <==> s == Executing
    ensures CanTransition(s, Executed) <==> s == Executing || s == ExecutionAmbiguous
    ensures CanTransition(s, Failed) <==>
              s == Draft || s == ApprovalPending || s == Approved || s == Executing || s == ExecutionAmbiguous
    ensures CanTransition(s, Cancelled) <==>
              s == Draft || s == Ready || s == Notified || s == ApprovalPending || s == Approved || s == ExecutionAmbiguous
    ensures CanTransition(s, Invalidated) <==>
              s == Draft || s == Ready || s == Notified || s == ApprovalPending || s == Approved
  {
  }

  /** The named sets are what the machine makes of them: a proposal is before execution exactly while it can
      be invalidated, in flight exactly while it can be executed, executable exactly when its next move can
      be execution, and active exactly until it is finished. */
  lemma SetsFollowTheMachine(s: Status)
    ensures PreExecution(s) <==> CanTransition(s, Invalidated)
    ensures InFlight(s) <==> CanTransition(s, Executed)
    ensures Executable(s) <==> CanTransition(s, Executing)
    ensures Active(s) <==> !Terminal(s)
    ensures Active(s) <==> PreExecution(s) || InFlight(s)
  {
  }
}
