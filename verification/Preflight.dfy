/** The checks run before a proposal is transmitted. A refusal is the default: the run permits a
    transmission only when every gate passes, and says whether the proposal survives a refusal. */
module Preflight {
  import opened Wrappers
  import opened Lifecycle
  import opened Ledger

  /** What this process is configured for, and where its provider actually points. */
  datatype Settings = Settings(configured: string, provider: string, blockers: seq<string>, consent: bool)
  {
    predicate Live() { configured == "live" }
  }

  datatype Control = Control(paused: bool, killSwitch: bool)
  {
    predicate Halted() { paused || killSwitch }
  }

  datatype Reason =
    | WrongConfiguredEnvironment | WrongProviderEnvironment | TransmissionBlocked(why: string)
    | KillSwitchEngaged | TradingPaused | AutomaticWithoutConsent | PolicyWithoutConsent
    | NotExecutable | NoProvenance | ExpiredProposal | AlreadySent | NoPositiveQuantity
    | RuleBlocked(rule: string) | PositionTooSmall

  /** The risk engine's fresh verdict: the rules that blocked, in order, and the tradable shares per
      listing when the account could be read. */
  datatype Revalidation = Revalidation(blocked: seq<string>, tradable: Option<map<string, int>>)

  datatype Verdict =
    | Permitted
    | Refused(reasons: seq<Reason>, invalidates: bool)

  // ---------------------------------------------------------------- the gates, one per reason

  /** Exactly when a permission check raises the reason. */
  predicate PermissionCause(s: Settings, p: Proposal, c: Control, r: Reason) {
    match r
    case WrongConfiguredEnvironment => p.environment != s.configured
    case WrongProviderEnvironment => p.environment != s.provider
    case TransmissionBlocked(why) => why in s.blockers
    case KillSwitchEngaged => c.killSwitch
    case TradingPaused => c.paused
    case AutomaticWithoutConsent => p.source == Some(SystemAutomatic) && s.Live() && !s.consent
    case PolicyWithoutConsent =>
      p.policy == Automatic && p.source.Some? && p.source != Some(SystemAutomatic) && s.Live() && !s.consent
    case _ => false
  }

  /** Exactly when a state check raises the reason. */
  predicate StateCause(p: Proposal, now: int, alreadySent: bool, r: Reason) {
    match r
    case NotExecutable => !Executable(p.status)
    case NoProvenance => p.source.None? || p.approvedAt.None?
    case ExpiredProposal => p.expiresAt <= now
    case AlreadySent => alreadySent
    case NoPositiveQuantity => p.quantity <= 0
    case _ => false
  }

  /** The permission gates, said positively. */
  ghost predicate PermissionGates(s: Settings, p: Proposal, c: Control) {
    && p.environment == s.configured == s.provider
    && s.blockers == []
    && !c.Halted()
    && (s.Live() && !s.consent ==> p.source != Some(SystemAutomatic) && !(p.policy == Automatic && p.source.Some?))
  }

  /** The state gates, said positively. */
  ghost predicate StateGates(p: Proposal, now: int, alreadySent: bool) {
    && Executable(p.status) && p.source.Some? && p.approvedAt.Some?
    && now < p.expiresAt && !alreadySent && 0 < p.quantity
  }

  ghost predicate LocalGates(s: Settings, p: Proposal, c: Control, now: int, alreadySent: bool) {
    PermissionGates(s, p, c) && StateGates(p, now, alreadySent)
  }

  ghost predicate RiskGates(p: Proposal, r: Revalidation) {
    && r.blocked == []
    && (p.side == Sell && r.tradable.Some? ==> p.quantity <= Tradable(r.tradable.value, p.ticker))
  }

  function Tradable(shares: map<string, int>, ticker: string): int {
    if ticker in shares then shares[ticker] else 0
  }

  predicate MissingInput(rule: string) {
    rule == "quote_available" || rule == "account_state_available" || rule == "fx_available"
  }

  predicate StaleInput(rule: string) {
    rule == "quote_freshness" || rule == "account_state_freshness" || rule == "fx_freshness"
  }

  /** A risk refusal that says nothing about the trade itself. */
  predicate Transient(blocked: set<string>) {
    blocked != {} &&
    ((exists r :: r in blocked && MissingInput(r)) || (forall r :: r in blocked ==> StaleInput(r)))
  }

  predicate PositionShort(p: Proposal, r: Revalidation) {
    p.side == Sell && r.tradable.Some? && Tradable(r.tradable.value, p.ticker) < p.quantity
  }

  // ---------------------------------------------------------------- the checks as the code runs them

  method PermissionReasons(s: Settings, p: Proposal, c: Control) returns (reasons: seq<Reason>)
    ensures forall r :: r in reasons <==> PermissionCause(s, p, c, r)
  {
    reasons := [];
    if p.environment != s.configured { reasons := reasons + [WrongConfiguredEnvironment]; }
    if p.environment != s.provider { reasons := reasons + [WrongProviderEnvironment]; }
    for i := 0 to |s.blockers|
      invariant forall r :: r in reasons <==>
        match r
        case WrongConfiguredEnvironment => p.environment != s.configured
        case WrongProviderEnvironment => p.environment != s.provider
        case TransmissionBlocked(why) => why in s.blockers[..i]
        case _ => false
    {
      assert s.blockers[..i + 1] == s.blockers[..i] + [s.blockers[i]];
      reasons := reasons + [TransmissionBlocked(s.blockers[i])];
    }
    assert s.blockers[..|s.blockers|] == s.blockers;
    if c.Halted() {
      if c.killSwitch { reasons := reasons + [KillSwitchEngaged]; }
      if c.paused { reasons := reasons + [TradingPaused]; }
    }
    if p.source == Some(SystemAutomatic) && s.Live() && !s.consent {
      reasons := reasons + [AutomaticWithoutConsent];
    }
    if p.policy == Automatic && p.source != Some(SystemAutomatic) && p.source.Some? && s.Live() && !s.consent {
      reasons := reasons + [PolicyWithoutConsent];
    }
  }

  method StateReasons(p: Proposal, now: int, alreadySent: bool) returns (reasons: seq<Reason>)
    ensures forall r :: r in reasons <==> StateCause(p, now, alreadySent, r)
  {
    reasons := [];
    if !Executable(p.status) { reasons := reasons + [NotExecutable]; }
    if p.source.None? || p.approvedAt.None? { reasons := reasons + [NoProvenance]; }
    if p.expiresAt <= now { reasons := reasons + [ExpiredProposal]; }
    if alreadySent { reasons := reasons + [AlreadySent]; }
    if p.quantity <= 0 { reasons := reasons + [NoPositiveQuantity]; }
  }

  /** The whole preflight. A transmission is permitted exactly when every gate passes; a refusal
      retires the proposal exactly when the local gates passed and risk refused the trade itself. */
  method Run(s: Settings, p: Proposal, c: Control, now: int, alreadySent: bool, reval: Option<Revalidation>)
    returns (v: Verdict)
    ensures v.Permitted? <==> LocalGates(s, p, c, now, alreadySent) && reval.Some? && RiskGates(p, reval.value)
    ensures v.Refused? && v.invalidates <==>
              && LocalGates(s, p, c, now, alreadySent) && reval.Some? && !RiskGates(p, reval.value)
              && !Transient(set r | r in reval.value.blocked)
    ensures !LocalGates(s, p, c, now, alreadySent) ==>
              v.Refused? && forall r :: r in v.reasons <==> PermissionCause(s, p, c, r) || StateCause(p, now, alreadySent, r)
    ensures LocalGates(s, p, c, now, alreadySent) && reval.Some? && v.Refused? ==>
              forall r :: r in v.reasons <==>
                (r.RuleBlocked? && r.rule in reval.value.blocked) || (r.PositionTooSmall? && PositionShort(p, reval.value))
  {
    var permission := PermissionReasons(s, p, c);
    var state := StateReasons(p, now, alreadySent);
    var blocking := permission + state;
    PermissionGatesExactly(s, p, c);
    StateGatesExactly(p, now, alreadySent);
    EmptyExactly(permission);
    EmptyExactly(state);
    if blocking != [] {
      return Refused(blocking, false);
    }
    if reval.None? {
      return Refused([], false);
    }
    var risk := RuleReasons(reval.value.blocked);
    RuleReasonsExactly(reval.value.blocked);
    if PositionShort(p, reval.value) { risk := risk + [PositionTooSmall]; }
    if risk != [] {
      return Refused(risk, !Transient(set r | r in reval.value.blocked));
    }
    v := Permitted;
  }

  function RuleReasons(blocked: seq<string>): seq<Reason> {
    seq(|blocked|, i requires 0 <= i < |blocked| => RuleBlocked(blocked[i]))
  }

  lemma RuleReasonsExactly(blocked: seq<string>)
    ensures forall r: Reason :: r in RuleReasons(blocked) <==> r.RuleBlocked? && r.rule in blocked
    ensures RuleReasons(blocked) == [] <==> blocked == []
  {
    forall r: Reason | r.RuleBlocked? && r.rule in blocked ensures r in RuleReasons(blocked) {
      var i :| 0 <= i < |blocked| && blocked[i] == r.rule;
      assert RuleReasons(blocked)[i] == r;
    }
  }

  /** No permission reason is raised exactly when every permission gate passes: the three environments are
      one, nothing blocks transmission, neither switch is on, and on the live account neither an automatic
      authority nor an automatic policy goes without consent. */
  lemma PermissionGatesExactly(s: Settings, p: Proposal, c: Control)
    ensures PermissionGates(s, p, c) <==> forall r :: !PermissionCause(s, p, c, r)
    ensures PermissionGates(s, p, c) <==>
              && p.environment == s.configured && p.environment == s.provider && |s.blockers| == 0 && !c.paused && !c.killSwitch
              && (s.configured == "live" && (p.source == Some(SystemAutomatic) || (p.source.Some? && p.policy == Automatic)) ==> s.consent)
  {
    if !PermissionGates(s, p, c) {
      var r :=
        if p.environment != s.configured then WrongConfiguredEnvironment
        else if p.environment != s.provider then WrongProviderEnvironment
        else if s.blockers != [] then TransmissionBlocked(s.blockers[0])
        else if c.killSwitch then KillSwitchEngaged
        else if c.paused then TradingPaused
        else if p.source == Some(SystemAutomatic) then AutomaticWithoutConsent
        else PolicyWithoutConsent;
      assert PermissionCause(s, p, c, r);
    }
  }

  /** No state reason is raised exactly when every state gate passes. */
  lemma StateGatesExactly(p: Proposal, now: int, alreadySent: bool)
    ensures StateGates(p, now, alreadySent) <==> forall r :: !StateCause(p, now, alreadySent, r)
    ensures StateGates(p, now, alreadySent) <==>
              p.status == Approved && p.source.Some? && p.approvedAt.Some? && p.expiresAt > now && !alreadySent && p.quantity > 0
  {
    if !StateGates(p, now, alreadySent) {
      var r :=
        if !Executable(p.status) then NotExecutable
        else if p.source.None? || p.approvedAt.None? then NoProvenance
        else if p.expiresAt <= now then ExpiredProposal
        else if alreadySent then AlreadySent
        else NoPositiveQuantity;
      assert StateCause(p, now, alreadySent, r);
    }
  }

  lemma EmptyExactly(reasons: seq<Reason>)
    ensures reasons == [] <==> forall r :: r !in reasons
  {
    if reasons != [] { assert reasons[0] in reasons; }
  }

  /** A stale input never masks anything and a missing one always defers: adding stale rules to a refusal
      changes nothing about it, adding a missing input makes any refusal transient, and adding a rule
      about the trade retires the proposal unless an input is missing. */
  lemma TransientUnderMore(blocked: set<string>, more: set<string>)
    requires blocked != {}
    ensures (forall r :: r in more ==> StaleInput(r)) ==> (Transient(blocked + more) <==> Transient(blocked))
    ensures (exists r :: r in more && MissingInput(r)) ==> Transient(blocked + more)
    ensures (exists r :: r in more && !StaleInput(r)) && (forall r :: r in blocked + more ==> !MissingInput(r)) ==>
              !Transient(blocked + more)
  {
    var all := blocked + more;
    var some :| some in blocked;
    assert some in all;
    assert forall r :: r in blocked ==> r in all;
    assert forall r :: r in more ==> r in all;
  }

  /** The only refusals that leave a proposal alone by themselves: the six about inputs, by name. With
      TransientUnderMore this settles every set of blocked rules. */
  lemma TransientAlone(rule: string)
    ensures Transient({rule}) <==>
              || rule == "quote_available" || rule == "account_state_available" || rule == "fx_available"
              || rule == "quote_freshness" || rule == "account_state_freshness" || rule == "fx_freshness"
    ensures !Transient({})
  {
    assert rule in {rule};
    if Transient({rule}) { assert MissingInput(rule) || StaleInput(rule); }
  }

  /** Risk passes exactly when no rule blocked and, once the account could be read, a sale is of shares held
      for trading: a listing that is not held at all backs no sale. */
  lemma RiskGatesExactly(p: Proposal, r: Revalidation)
    requires p.quantity > 0
    ensures RiskGates(p, r) <==>
              && |r.blocked| == 0
              && (p.side == Sell && r.tradable.Some? ==> p.ticker in r.tradable.value && p.quantity <= r.tradable.value[p.ticker])
  {
  }
}
