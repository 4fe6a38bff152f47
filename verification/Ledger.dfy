/** The rows the execution protocol reads and writes, the constraints the database puts on them,
    and each write transaction as a function from one committed ledger to the next. A transaction
    that raises, or that a constraint refuses, is rolled back: its result is None. */
module Ledger {
  import opened Wrappers
  import opened Lifecycle

  type PropId = nat
  type AttId = nat
  type OrderId = nat

  datatype Side = Buy | Sell
  datatype Source = HumanWeb | HumanTelegram | SystemAutomatic
  datatype Policy = Manual | Automatic

  datatype Proposal = Proposal(
    ticker: string, side: Side, quantity: int, environment: string,
    status: Status, version: nat, expiresAt: int,
    source: Option<Source>, approvedAt: Option<int>, policy: Policy)
  {
    function Signed(): int {
      if side == Buy then quantity else -quantity
    }

    /** Every committed write of the row bumps the optimistic-lock version. */
    function Moved(to: Status): Proposal {
      this.(status := to, version := version + 1)
    }
  }

  datatype Outcome =
    | Pending | FailedBeforeSend | Submitted | RejectedByBroker
    | Ambiguous | ReconciledFilled | ReconciledNotPlaced

  datatype Attempt = Attempt(
    proposal: PropId, number: nat, sent: bool, sentAt: Option<int>,
    outcome: Outcome, ambiguous: bool, orderId: Option<OrderId>,
    ticker: string, signed: int, passes: nat)

  /** The broker's word for where an order stands, normalised to the cases the code tells apart. */
  datatype OrderStatus = Working | Filled | Dead

  /** What a reconciliation pass concluded. */
  datatype Conclusion =
    | OrderFound(order: OrderId, status: OrderStatus)
    | OrderNotPlaced | Inconclusive | MultipleCandidates(count: nat) | BrokerUnavailable

  datatype Db = Db(proposals: seq<Proposal>, attempts: seq<Attempt>, mirrors: map<OrderId, AttId>)

  // ---------------------------------------------------------------- constraints

  /** The CHECK constraints on one attempt row. */
  predicate RowChecks(a: Attempt) {
    && (a.sent ==> a.sentAt.Some?)
    && (a.ambiguous <==> a.outcome == Ambiguous)
    && (a.orderId.Some? ==> a.sent)
    && (a.outcome.Submitted? || a.outcome.RejectedByBroker? ==> a.sent)
  }

  predicate HasSent(attempts: seq<Attempt>, pid: PropId) {
    exists a :: 0 <= a < |attempts| && attempts[a].proposal == pid && attempts[a].sent
  }

  function Highest(attempts: seq<Attempt>, pid: PropId): nat {
    if attempts == [] then 0
    else
      var last := attempts[|attempts| - 1];
      var before := Highest(attempts[..|attempts| - 1], pid);
      if last.proposal == pid && last.number > before then last.number else before
  }

  function CountOf(attempts: seq<Attempt>, pid: PropId): nat {
    if attempts == [] then 0
    else CountOf(attempts[..|attempts| - 1], pid) +
         (if attempts[|attempts| - 1].proposal == pid then 1 else 0)
  }

  /** Attempt numbers run 1, 2, 3, ... per proposal, in the order the rows were committed. */
  ghost predicate Numbered(attempts: seq<Attempt>) {
    forall a :: 0 <= a < |attempts| ==>
      attempts[a].number == CountOf(attempts[..a], attempts[a].proposal) + 1
  }

  ghost predicate SentOnce(attempts: seq<Attempt>) {
    forall a, b :: 0 <= a < b < |attempts| && attempts[a].sent && attempts[b].sent ==>
      attempts[a].proposal != attempts[b].proposal
  }

  /** uq_trade_proposals_active_instrument, in the single broker account of the model. */
  ghost predicate OneActivePerTicker(proposals: seq<Proposal>) {
    forall p, q :: 0 <= p < q < |proposals| && Active(proposals[p].status) && Active(proposals[q].status) ==>
      proposals[p].ticker != proposals[q].ticker
  }

  ghost predicate RowsMatch(db: Db) {
    && (forall a :: 0 <= a < |db.attempts| ==>
          && db.attempts[a].proposal < |db.proposals|
          && RowChecks(db.attempts[a])
          && (db.attempts[a].sent ==>
                && Begun(db.proposals[db.attempts[a].proposal].status)
                && db.attempts[a].ticker == db.proposals[db.attempts[a].proposal].ticker
                && db.attempts[a].signed == db.proposals[db.attempts[a].proposal].Signed()))
    && (forall o :: o in db.mirrors ==> db.mirrors[o] < |db.attempts|)
  }

  ghost predicate FlightHasSender(db: Db) {
    forall p :: 0 <= p < |db.proposals| && InFlight(db.proposals[p].status) ==> HasSent(db.attempts, p)
  }

  /** The well-formedness every transaction keeps. */
  ghost predicate Valid(db: Db) {
    && RowsMatch(db)
    && Numbered(db.attempts)
    && SentOnce(db.attempts)
    && FlightHasSender(db)
    && OneActivePerTicker(db.proposals)
  }

  // ---------------------------------------------------------------- transactions

  /** The send transaction. */
  function Claim(db: Db, pid: PropId, observed: nat, ticker: string, signed: int, halted: bool, now: int): Option<Db>
    requires pid < |db.proposals|
  {
    var p := db.proposals[pid];
    if p.version != observed then None
    else if !Executable(p.status) || p.expiresAt <= now then None
    else if HasSent(db.attempts, pid) then None
    else if halted then None
    else
      var a := Attempt(pid, Highest(db.attempts, pid) + 1, true, Some(now), Pending, false, None, ticker, signed, 0);
      Some(db.(attempts := db.attempts + [a], proposals := db.proposals[pid := p.Moved(Executing)]))
  }

  /** Commits a rewritten attempt row together with its proposal, if the row passes its checks and
      the proposal may make the move. */
  function Commit(db: Db, aid: AttId, row: Attempt, to: Status): Option<Db>
    requires aid < |db.attempts| && db.attempts[aid].proposal < |db.proposals|
  {
    var pid := db.attempts[aid].proposal;
    var p := db.proposals[pid];
    if p.status != to && !CanTransition(p.status, to) then None
    else if !RowChecks(row) then None
    else Some(db.(attempts := db.attempts[aid := row], proposals := db.proposals[pid := p.Moved(to)]))
  }

  /** Asserting a transition to the status already held also raises. */
  function CommitMove(db: Db, aid: AttId, row: Attempt, to: Status): Option<Db>
    requires aid < |db.attempts| && db.attempts[aid].proposal < |db.proposals|
  {
    if CanTransition(db.proposals[db.attempts[aid].proposal].status, to) then Commit(db, aid, row, to) else None
  }

  function Mirrored(db: Option<Db>, order: OrderId, aid: AttId): Option<Db> {
    if db.None? then None else Some(db.value.(mirrors := db.value.mirrors[order := aid]))
  }

  function RecordSuccess(db: Db, aid: AttId, order: OrderId, status: OrderStatus): Option<Db>
    requires aid < |db.attempts| && db.attempts[aid].proposal < |db.proposals|
  {
    var row := db.attempts[aid].(outcome := Submitted, ambiguous := false, orderId := Some(order));
    Mirrored(
      match status
      case Filled => CommitMove(db, aid, row, Executed)
      case Dead => CommitMove(db, aid, row, Failed)
      case Working => Commit(db, aid, row, db.proposals[db.attempts[aid].proposal].status),
      order, aid)
  }

  function RecordRejection(db: Db, aid: AttId): Option<Db>
    requires aid < |db.attempts| && db.attempts[aid].proposal < |db.proposals|
  {
    CommitMove(db, aid, db.attempts[aid].(outcome := RejectedByBroker, ambiguous := false), Failed)
  }

  function RetractUnsent(db: Db, aid: AttId): Option<Db>
    requires aid < |db.attempts| && db.attempts[aid].proposal < |db.proposals|
  {
    CommitMove(db, aid,
      db.attempts[aid].(sent := false, sentAt := None, outcome := FailedBeforeSend, ambiguous := false), Approved)
  }

  function RecordAmbiguous(db: Db, aid: AttId): Option<Db>
    requires aid < |db.attempts| && db.attempts[aid].proposal < |db.proposals|
  {
    Commit(db, aid, db.attempts[aid].(outcome := Ambiguous, ambiguous := true), ExecutionAmbiguous)
  }

  /** A refusal that never touched the network. The proposal row is written only when it is retired. */
  function RecordRefusal(db: Db, pid: PropId, ticker: string, signed: int, invalidates: bool): Db
    requires pid < |db.proposals|
  {
    var p := db.proposals[pid];
    var a := Attempt(pid, Highest(db.attempts, pid) + 1, false, None, FailedBeforeSend, false, None, ticker, signed, 0);
    var proposals := if invalidates && Executable(p.status) then db.proposals[pid := p.Moved(Invalidated)] else db.proposals;
    db.(attempts := db.attempts + [a], proposals := proposals)
  }

  /** Where the broker's report of the order takes the proposal. */
  function AdvanceForOrder(current: Status, status: OrderStatus): Status {
    if status == Filled && CanTransition(current, Executed) then Executed
    else if status == Dead && CanTransition(current, Failed) then Failed
    else current
  }

  function FoundRow(a: Attempt, order: OrderId, status: OrderStatus): Attempt {
    a.(passes := a.passes + 1, orderId := Some(order), ambiguous := false,
       outcome := if status == Filled then ReconciledFilled else Submitted)
  }

  function AbsentRow(a: Attempt): Attempt {
    a.(passes := a.passes + 1, outcome := ReconciledNotPlaced, ambiguous := false)
  }

  /** One transaction of a reconciliation pass that found the order. */
  function RecordFound(db: Db, aid: AttId, order: OrderId, status: OrderStatus): Option<Db>
    requires aid < |db.attempts| && db.attempts[aid].proposal < |db.proposals|
  {
    var to := AdvanceForOrder(db.proposals[db.attempts[aid].proposal].status, status);
    Mirrored(Commit(db, aid, FoundRow(db.attempts[aid], order, status), to), order, aid)
  }

  /** Rewriting an attempt row alone. */
  function Rewrite(db: Db, aid: AttId, row: Attempt): Option<Db>
    requires aid < |db.attempts|
  {
    if RowChecks(row) then Some(db.(attempts := db.attempts[aid := row])) else None
  }

  function RecordNotPlaced(db: Db, aid: AttId): Option<Db>
    requires aid < |db.attempts| && db.attempts[aid].proposal < |db.proposals|
  {
    if CanTransition(db.proposals[db.attempts[aid].proposal].status, Failed)
    then Commit(db, aid, AbsentRow(db.attempts[aid]), Failed)
    else Rewrite(db, aid, AbsentRow(db.attempts[aid]))
  }

  /** Persisting the conclusion of one reconciliation pass. */
  function RecordConclusion(db: Db, aid: AttId, result: Conclusion): Option<Db>
    requires aid < |db.attempts| && db.attempts[aid].proposal < |db.proposals|
  {
    match result
    case OrderFound(order, status) => RecordFound(db, aid, order, status)
    case OrderNotPlaced => RecordNotPlaced(db, aid)
    case _ => Rewrite(db, aid, db.attempts[aid].(passes := db.attempts[aid].passes + 1))
  }

  // ---------------------------------------------------------------- what a transaction may change

  ghost predicate SameIdentity(a: Attempt, b: Attempt) {
    a.proposal == b.proposal && a.number == b.number && a.ticker == b.ticker && a.signed == b.signed
  }

  /** The attempt is marked sent and its proposal is still in flight. */
  ghost predicate Live(db: Db, a: AttId) {
    && a < |db.attempts| && db.attempts[a].sent
    && db.attempts[a].proposal < |db.proposals|
    && InFlight(db.proposals[db.attempts[a].proposal].status)
  }

  ghost predicate ProposalEvolves(p: Proposal, q: Proposal) {
    && p.version <= q.version
    && (p.version == q.version ==> p == q)
    && (Terminal(p.status) ==> q.status == p.status)
  }

  ghost predicate AttemptEvolves(a: Attempt, b: Attempt) {
    SameIdentity(a, b) && (b.sent ==> a.sent && b.sentAt == a.sentAt) && a.passes <= b.passes
  }

  /** How the ledger may move, whoever moves it: rows are never removed, an attempt is never marked
      sent again, a proposal row that kept its version kept its content, a finished proposal keeps
      its status, and an attempt that stopped being live stays so. Only the attempts in `touched`
      may lose their mark. */
  ghost predicate Evolves(db: Db, db': Db, touched: set<AttId>) {
    && |db.proposals| <= |db'.proposals| && |db.attempts| <= |db'.attempts|
    && (forall p :: 0 <= p < |db.proposals| ==> ProposalEvolves(db.proposals[p], db'.proposals[p]))
    && (forall a :: 0 <= a < |db.attempts| ==>
          && AttemptEvolves(db.attempts[a], db'.attempts[a])
          && (a !in touched ==> db'.attempts[a].sent == db.attempts[a].sent)
          && (Live(db', a) ==> Live(db, a)))
  }

  // ---------------------------------------------------------------- numbering lemmas

  lemma {:induction false} HighestIsCount(attempts: seq<Attempt>, pid: PropId)
    requires Numbered(attempts)
    ensures Highest(attempts, pid) == CountOf(attempts, pid)
  {
    if attempts != [] {
      var init := attempts[..|attempts| - 1];
      assert forall a :: 0 <= a < |init| ==> init[..a] == attempts[..a];
      HighestIsCount(init, pid);
    }
  }

  lemma AppendNumbered(attempts: seq<Attempt>, a: Attempt)
    requires Numbered(attempts) && a.number == Highest(attempts, a.proposal) + 1
    ensures Numbered(attempts + [a])
  {
    HighestIsCount(attempts, a.proposal);
    var all := attempts + [a];
    forall k | 0 <= k < |all| ensures all[k].number == CountOf(all[..k], all[k].proposal) + 1 {
      if k < |attempts| { assert all[..k] == attempts[..k]; } else { assert all[..k] == attempts; }
    }
  }

  lemma {:induction false} CountFollowsIdentity(s: seq<Attempt>, t: seq<Attempt>, pid: PropId)
    requires |s| == |t| && forall k :: 0 <= k < |s| ==> s[k].proposal == t[k].proposal
    ensures CountOf(s, pid) == CountOf(t, pid)
  {
    if s != [] { CountFollowsIdentity(s[..|s| - 1], t[..|t| - 1], pid); }
  }

  lemma UpdateNumbered(attempts: seq<Attempt>, aid: AttId, row: Attempt)
    requires Numbered(attempts) && aid < |attempts| && SameIdentity(attempts[aid], row)
    ensures Numbered(attempts[aid := row])
  {
    var all := attempts[aid := row];
    forall k | 0 <= k < |all| ensures all[k].number == CountOf(all[..k], all[k].proposal) + 1 {
      CountFollowsIdentity(all[..k], attempts[..k], all[k].proposal);
    }
  }

  lemma {:induction false} CountIsMonotone(s: seq<Attempt>, i: nat, j: nat, pid: PropId)
    requires i <= j <= |s|
    ensures CountOf(s[..i], pid) <= CountOf(s[..j], pid)
    decreases j
  {
    if i < j {
      assert s[..j][..j - 1] == s[..j - 1];
      CountIsMonotone(s, i, j - 1, pid);
    }
  }

  lemma NumbersIncrease(attempts: seq<Attempt>, a: AttId, b: AttId)
    requires Numbered(attempts) && a < b < |attempts| && attempts[a].proposal == attempts[b].proposal
    ensures attempts[a].number < attempts[b].number
  {
    assert attempts[..a + 1][..a] == attempts[..a];
    CountIsMonotone(attempts, a + 1, b, attempts[a].proposal);
  }

  lemma PrefixNumbered(attempts: seq<Attempt>, n: nat)
    requires Numbered(attempts) && n <= |attempts|
    ensures Numbered(attempts[..n])
  {
    assert forall a :: 0 <= a < n ==> attempts[..n][..a] == attempts[..a];
  }

  ghost predicate NumberUsed(attempts: seq<Attempt>, pid: PropId, k: nat) {
    exists a :: 0 <= a < |attempts| && attempts[a].proposal == pid && attempts[a].number == k
  }

  lemma UsedAppend(init: seq<Attempt>, last: Attempt, pid: PropId, k: nat)
    ensures NumberUsed(init + [last], pid, k) <==> NumberUsed(init, pid, k) || (last.proposal == pid && last.number == k)
  {
    var all := init + [last];
    assert all[|init|] == last;
    if NumberUsed(init, pid, k) {
      var a :| 0 <= a < |init| && init[a].proposal == pid && init[a].number == k;
      assert all[a].proposal == pid && all[a].number == k;
    }
  }

  /** A proposal's attempt numbers are exactly 1..n, and by NumbersIncrease none is used twice. */
  lemma {:induction false} NumbersAreExactlyOneToN(attempts: seq<Attempt>, pid: PropId, k: nat)
    requires Numbered(attempts)
    ensures NumberUsed(attempts, pid, k) <==> 1 <= k <= CountOf(attempts, pid)
  {
    if attempts != [] {
      var n := |attempts| - 1;
      var init := attempts[..n];
      assert attempts[n].number == CountOf(init, attempts[n].proposal) + 1;
      PrefixNumbered(attempts, n);
      hide Numbered, NumberUsed;
      NumbersAreExactlyOneToN(init, pid, k);
      UsedAppend(init, attempts[n], pid, k);
      assert init + [attempts[n]] == attempts;
    }
  }

  // ---------------------------------------------------------------- every transaction keeps the ledger valid

  /** What a write of proposal rows alone respects: a begun proposal keeps its trade and stays begun,
      and no write of this kind puts a proposal in flight. */
  ghost predicate ProposalsMove(before: seq<Proposal>, after: seq<Proposal>) {
    && |before| <= |after| && OneActivePerTicker(after)
    && (forall p :: 0 <= p < |before| ==>
          && ProposalEvolves(before[p], after[p])
          && (Begun(before[p].status) ==>
                Begun(after[p].status) && after[p].ticker == before[p].ticker && after[p].Signed() == before[p].Signed()))
    && (forall p :: 0 <= p < |after| && InFlight(after[p].status) ==> p < |before| && InFlight(before[p].status))
  }

  lemma ProposalsMoveKeepsValid(db: Db, after: seq<Proposal>)
    requires Valid(db) && ProposalsMove(db.proposals, after)
    ensures Valid(db.(proposals := after)) && Evolves(db, db.(proposals := after), {})
  {
  }

  /** One attempt row and its proposal row rewritten together. */
  function Replace(db: Db, aid: AttId, row: Attempt, p: Proposal): Db
    requires aid < |db.attempts| && db.attempts[aid].proposal < |db.proposals|
  {
    db.(attempts := db.attempts[aid := row], proposals := db.proposals[db.attempts[aid].proposal := p])
  }

  /** What every such rewrite in the protocol respects: a mark may be cleared but never set, and
      clearing it is the only way an already begun proposal reopens. */
  ghost predicate Rewrites(a: Attempt, row: Attempt, p: Proposal, q: Proposal) {
    && AttemptEvolves(a, row) && RowChecks(row)
    && ProposalEvolves(p, q) && q.ticker == p.ticker && q.Signed() == p.Signed()
    && (Active(q.status) ==> Active(p.status))
    && (InFlight(q.status) ==> InFlight(p.status) && (a.sent ==> row.sent))
    && (Begun(p.status) ==> Begun(q.status) || (a.sent && !row.sent))
    && (row.sent ==> Begun(q.status))
  }

  lemma ReplaceKeepsRows(db: Db, aid: AttId, row: Attempt, p: Proposal)
    requires RowsMatch(db) && SentOnce(db.attempts) && aid < |db.attempts|
    requires Rewrites(db.attempts[aid], row, db.proposals[db.attempts[aid].proposal], p)
    ensures RowsMatch(Replace(db, aid, row, p))
  {
    var d := Replace(db, aid, row, p);
    forall a | 0 <= a < |d.attempts|
      ensures d.attempts[a].proposal < |d.proposals| && RowChecks(d.attempts[a])
      ensures d.attempts[a].sent ==>
                && Begun(d.proposals[d.attempts[a].proposal].status)
                && d.attempts[a].ticker == d.proposals[d.attempts[a].proposal].ticker
                && d.attempts[a].signed == d.proposals[d.attempts[a].proposal].Signed()
    {
      assert a != aid && d.attempts[a].sent && d.attempts[a].proposal == row.proposal ==> !db.attempts[aid].sent;
    }
  }

  lemma ReplaceKeepsFlight(db: Db, aid: AttId, row: Attempt, p: Proposal)
    requires RowsMatch(db) && FlightHasSender(db) && aid < |db.attempts|
    requires Rewrites(db.attempts[aid], row, db.proposals[db.attempts[aid].proposal], p)
    ensures FlightHasSender(Replace(db, aid, row, p))
  {
    var d := Replace(db, aid, row, p);
    forall q | 0 <= q < |d.proposals| && InFlight(d.proposals[q].status) ensures HasSent(d.attempts, q) {
      assert InFlight(db.proposals[q].status);
      var a :| 0 <= a < |db.attempts| && db.attempts[a].proposal == q && db.attempts[a].sent;
      assert d.attempts[a].proposal == q && d.attempts[a].sent;
    }
  }

  lemma ReplaceEvolves(db: Db, aid: AttId, row: Attempt, p: Proposal)
    requires RowsMatch(db) && SentOnce(db.attempts) && aid < |db.attempts|
    requires Rewrites(db.attempts[aid], row, db.proposals[db.attempts[aid].proposal], p)
    ensures Evolves(db, Replace(db, aid, row, p), if row.sent == db.attempts[aid].sent then {} else {aid})
  {
    var d := Replace(db, aid, row, p);
    forall a | 0 <= a < |db.attempts| && Live(d, a) ensures Live(db, a) {
    }
  }

  lemma ReplaceKeepsValid(db: Db, aid: AttId, row: Attempt, p: Proposal)
    requires Valid(db) && aid < |db.attempts|
    requires Rewrites(db.attempts[aid], row, db.proposals[db.attempts[aid].proposal], p)
    ensures Valid(Replace(db, aid, row, p))
    ensures Evolves(db, Replace(db, aid, row, p), if row.sent == db.attempts[aid].sent then {} else {aid})
  {
    ReplaceKeepsRows(db, aid, row, p);
    ReplaceKeepsFlight(db, aid, row, p);
    ReplaceEvolves(db, aid, row, p);
    UpdateNumbered(db.attempts, aid, row);
  }

  /** A committed move that leaves the mark alone and does not send the proposal back to Approved. */
  lemma CommitKeepsValid(db: Db, aid: AttId, row: Attempt, to: Status)
    requires Valid(db) && aid < |db.attempts|
    requires AttemptEvolves(db.attempts[aid], row) && row.sent == db.attempts[aid].sent
    requires to == db.proposals[db.attempts[aid].proposal].status || to.Executed? || to.Failed? || to.ExecutionAmbiguous?
    ensures var r := Commit(db, aid, row, to);
            r.Some? ==> Valid(r.value) && Evolves(db, r.value, {})
  {
    var p := db.proposals[db.attempts[aid].proposal];
    if Commit(db, aid, row, to).Some? {
      assert p.status == to || CanTransition(p.status, to);
      ReplaceKeepsValid(db, aid, row, p.Moved(to));
    }
  }

  lemma MirrorKeepsValid(before: Db, db: Db, order: OrderId, aid: AttId)
    requires Valid(db) && aid < |db.attempts| && Evolves(before, db, {})
    ensures Valid(db.(mirrors := db.mirrors[order := aid]))
    ensures Evolves(before, db.(mirrors := db.mirrors[order := aid]), {})
  {
  }

  lemma SuccessKeepsValid(db: Db, aid: AttId, order: OrderId, status: OrderStatus)
    requires Valid(db) && aid < |db.attempts|
    ensures var r := RecordSuccess(db, aid, order, status);
            r.Some? ==> Valid(r.value) && Evolves(db, r.value, {})
  {
    var row := db.attempts[aid].(outcome := Submitted, ambiguous := false, orderId := Some(order));
    var to := match status
      case Filled => Executed
      case Dead => Failed
      case Working => db.proposals[row.proposal].status;
    CommitKeepsValid(db, aid, row, to);
    if RecordSuccess(db, aid, order, status).Some? {
      MirrorKeepsValid(db, Commit(db, aid, row, to).value, order, aid);
    }
  }

  lemma RejectionKeepsValid(db: Db, aid: AttId)
    requires Valid(db) && aid < |db.attempts|
    ensures var r := RecordRejection(db, aid);
            r.Some? ==> Valid(r.value) && Evolves(db, r.value, {})
  {
    CommitKeepsValid(db, aid, db.attempts[aid].(outcome := RejectedByBroker, ambiguous := false), Failed);
  }

  /** Retracting is the one transaction that clears the mark, and only on the attempt it names. */
  lemma RetractKeepsValid(db: Db, aid: AttId)
    requires Valid(db) && aid < |db.attempts| && db.attempts[aid].sent
    ensures var r := RetractUnsent(db, aid);
            r.Some? ==> Valid(r.value) && Evolves(db, r.value, {aid})
  {
    var row := db.attempts[aid].(sent := false, sentAt := None, outcome := FailedBeforeSend, ambiguous := false);
    if RetractUnsent(db, aid).Some? {
      ReplaceKeepsValid(db, aid, row, db.proposals[row.proposal].Moved(Approved));
    }
  }

  lemma AmbiguousKeepsValid(db: Db, aid: AttId)
    requires Valid(db) && aid < |db.attempts|
    ensures var r := RecordAmbiguous(db, aid);
            r.Some? ==> Valid(r.value) && Evolves(db, r.value, {})
  {
    CommitKeepsValid(db, aid, db.attempts[aid].(outcome := Ambiguous, ambiguous := true), ExecutionAmbiguous);
  }

  /** Rewriting an attempt row alone. */
  lemma RowKeepsValid(db: Db, aid: AttId, row: Attempt)
    requires Valid(db) && aid < |db.attempts|
    requires AttemptEvolves(db.attempts[aid], row) && row.sent == db.attempts[aid].sent && RowChecks(row)
    ensures Valid(db.(attempts := db.attempts[aid := row]))
    ensures Evolves(db, db.(attempts := db.attempts[aid := row]), {})
  {
    var pid := db.attempts[aid].proposal;
    ReplaceKeepsValid(db, aid, row, db.proposals[pid]);
    assert db.proposals[pid := db.proposals[pid]] == db.proposals;
  }

  lemma FoundKeepsValid(db: Db, aid: AttId, order: OrderId, status: OrderStatus)
    requires Valid(db) && aid < |db.attempts|
    ensures var r := RecordFound(db, aid, order, status);
            r.Some? ==> Valid(r.value) && Evolves(db, r.value, {})
  {
    var row := FoundRow(db.attempts[aid], order, status);
    var to := AdvanceForOrder(db.proposals[row.proposal].status, status);
    hide Valid, Evolves;
    CommitKeepsValid(db, aid, row, to);
    if Commit(db, aid, row, to).Some? {
      MirrorKeepsValid(db, Commit(db, aid, row, to).value, order, aid);
    }
  }

  lemma NotPlacedKeepsValid(db: Db, aid: AttId)
    requires Valid(db) && aid < |db.attempts|
    ensures var r := RecordNotPlaced(db, aid);
            r.Some? ==> Valid(r.value) && Evolves(db, r.value, {})
  {
    var row := AbsentRow(db.attempts[aid]);
    assert row.proposal < |db.proposals|;
    hide Valid, Evolves;
    CommitKeepsValid(db, aid, row, Failed);
    if RowChecks(row) { RowKeepsValid(db, aid, row); }
  }

  lemma ConclusionKeepsValid(db: Db, aid: AttId, result: Conclusion)
    requires Valid(db) && aid < |db.attempts|
    ensures var r := RecordConclusion(db, aid, result);
            r.Some? ==> Valid(r.value) && Evolves(db, r.value, {})
  {
    hide Valid, Evolves, RecordFound, RecordNotPlaced, RowChecks;
    var row := db.attempts[aid].(passes := db.attempts[aid].passes + 1);
    if result.OrderFound? { FoundKeepsValid(db, aid, result.order, result.status); }
    else if result.OrderNotPlaced? { NotPlacedKeepsValid(db, aid); }
    else if RowChecks(row) { RowKeepsValid(db, aid, row); }
  }

  lemma AppendKeepsSenders(db: Db, d: Db)
    requires |db.attempts| <= |d.attempts|
    requires forall a :: 0 <= a < |db.attempts| ==> d.attempts[a] == db.attempts[a]
    ensures forall p :: HasSent(db.attempts, p) ==> HasSent(d.attempts, p)
  {
    forall p | HasSent(db.attempts, p) ensures HasSent(d.attempts, p) {
      var a :| 0 <= a < |db.attempts| && db.attempts[a].proposal == p && db.attempts[a].sent;
      assert d.attempts[a].proposal == p && d.attempts[a].sent;
    }
  }

  /** What a transaction that inserts an attempt respects. */
  ghost predicate Inserts(db: Db, a: Attempt, q: Proposal)
    requires a.proposal < |db.proposals|
  {
    var p := db.proposals[a.proposal];
    && RowChecks(a) && a.number == Highest(db.attempts, a.proposal) + 1
    && ProposalEvolves(p, q) && q.ticker == p.ticker && q.Signed() == p.Signed()
    && (Active(q.status) ==> Active(p.status))
    && (Begun(p.status) ==> Begun(q.status))
    && (InFlight(q.status) ==> InFlight(p.status) || a.sent)
    && (a.sent ==> !HasSent(db.attempts, a.proposal) && Begun(q.status) && a.ticker == q.ticker && a.signed == q.Signed())
    && (!a.sent ==> InFlight(q.status) ==> InFlight(p.status))
  }

  function Inserted(db: Db, a: Attempt, q: Proposal): Db
    requires a.proposal < |db.proposals|
  {
    db.(attempts := db.attempts + [a], proposals := db.proposals[a.proposal := q])
  }

  lemma InsertKeepsRows(db: Db, a: Attempt, q: Proposal)
    requires Valid(db) && a.proposal < |db.proposals| && Inserts(db, a, q)
    ensures RowsMatch(Inserted(db, a, q)) && Numbered(Inserted(db, a, q).attempts)
    ensures SentOnce(Inserted(db, a, q).attempts)
  {
    AppendNumbered(db.attempts, a);
  }

  lemma InsertKeepsFlight(db: Db, a: Attempt, q: Proposal)
    requires Valid(db) && a.proposal < |db.proposals| && Inserts(db, a, q)
    ensures FlightHasSender(Inserted(db, a, q)) && Evolves(db, Inserted(db, a, q), {})
  {
    var d := Inserted(db, a, q);
    AppendKeepsSenders(db, d);
    assert d.attempts[|db.attempts|] == a;
    forall b | 0 <= b < |db.attempts| && Live(d, b) ensures Live(db, b) {
      if db.attempts[b].proposal == a.proposal { assert HasSent(db.attempts, a.proposal); }
    }
  }

  lemma InsertKeepsValid(db: Db, a: Attempt, q: Proposal)
    requires Valid(db) && a.proposal < |db.proposals| && Inserts(db, a, q)
    ensures Valid(Inserted(db, a, q)) && Evolves(db, Inserted(db, a, q), {})
  {
    InsertKeepsRows(db, a, q);
    InsertKeepsFlight(db, a, q);
  }

  lemma ClaimKeepsValid(db: Db, pid: PropId, observed: nat, ticker: string, signed: int, halted: bool, now: int)
    requires Valid(db) && pid < |db.proposals|
    requires db.proposals[pid].version == observed ==>
               ticker == db.proposals[pid].ticker && signed == db.proposals[pid].Signed()
    ensures var r := Claim(db, pid, observed, ticker, signed, halted, now);
            r.Some? ==> Valid(r.value) && Evolves(db, r.value, {})
  {
    hide Valid, Evolves, RowsMatch, SentOnce, Numbered, FlightHasSender, OneActivePerTicker, HasSent, Highest;
    if Claim(db, pid, observed, ticker, signed, halted, now).Some? {
      var a := Attempt(pid, Highest(db.attempts, pid) + 1, true, Some(now), Pending, false, None, ticker, signed, 0);
      InsertKeepsValid(db, a, db.proposals[pid].Moved(Executing));
    }
  }

  lemma RefusalKeepsValid(db: Db, pid: PropId, ticker: string, signed: int, invalidates: bool)
    requires Valid(db) && pid < |db.proposals|
    ensures var d := RecordRefusal(db, pid, ticker, signed, invalidates);
            Valid(d) && Evolves(db, d, {})
  {
    var p := db.proposals[pid];
    var a := Attempt(pid, Highest(db.attempts, pid) + 1, false, None, FailedBeforeSend, false, None, ticker, signed, 0);
    var q := if invalidates && Executable(p.status) then p.Moved(Invalidated) else p;
    hide Valid, Evolves, HasSent, Highest, RecordRefusal;
    RefusalInserts(db, pid, ticker, signed, invalidates, a, q);
    InsertKeepsValid(db, a, q);
  }

  lemma RefusalInserts(db: Db, pid: PropId, ticker: string, signed: int, invalidates: bool, a: Attempt, q: Proposal)
    requires pid < |db.proposals|
    requires a == Attempt(pid, Highest(db.attempts, pid) + 1, false, None, FailedBeforeSend, false, None, ticker, signed, 0)
    requires q == if invalidates && Executable(db.proposals[pid].status) then db.proposals[pid].Moved(Invalidated) else db.proposals[pid]
    ensures Inserts(db, a, q) && RecordRefusal(db, pid, ticker, signed, invalidates) == Inserted(db, a, q)
  {
    hide HasSent, Highest;
    assert db.proposals[pid := db.proposals[pid]] == db.proposals;
  }
}
