/** The execution protocol as a transition system: any number of workers, the crash sweep, the
    reconciler, the operator and the broker, interleaved one committed transaction, one broker read
    or one transmission at a time, with a crash possible anywhere. */
module Protocol {
  import opened Wrappers
  import opened Lifecycle
  import opened Ledger
  import opened Matching
  import P = Preflight
  import T = Transmission

  datatype Config = Config(settings: P.Settings, settle: int, window: nat)

  type WorkerId = nat

  /** Where a worker stands between two atomic steps, with the values it carries. `now` is the
      instant fixed when its job started; a refusing worker keeps the risk verdict it got, if any. */
  datatype Pc =
    | Opened(pid: PropId, now: int)
    | Loaded(pid: PropId, now: int, row: Proposal)
    | Screened(pid: PropId, now: int, row: Proposal)
    | Cleared(pid: PropId, now: int, row: Proposal, again: Proposal, verdict: P.Revalidation)
    | Refusing(pid: PropId, now: int, row: Proposal, refusal: Option<P.Revalidation>, invalidates: bool)
    | Committed(aid: AttId)
    | Posting(aid: AttId)
    | Returned(aid: AttId, answer: T.Submission)
    | Recovering(aid: AttId)
    | Searching(f: Facts, now: int)
    | PendingRead(f: Facts, now: int, found: map<OrderId, View>, ok: bool, since: int)
    | HistoryRead(f: Facts, now: int, found: map<OrderId, View>, ok: bool, since: int)
    | Concluding(f: Facts, now: int, searched: bool, result: Conclusion)

  /** `transit` holds the attempts whose request left and has neither become an order nor been lost;
      `posts` counts the transmissions of each attempt. Workers absent from the map are idle. */
  datatype State = State(
    db: Db, orders: seq<Order>, transit: set<AttId>, posts: multiset<AttId>,
    workers: map<WorkerId, Pc>, control: P.Control, clock: int)

  datatype Step =
    // the operator, the other services and the clock
    | Tick(to: int)
    | SetControl(control: P.Control)
    | Create(row: Proposal)
    | Edit(pid: PropId, row: Proposal)
    | Cancel(pid: PropId)
    // the broker
    | Place(order: Order)
    | Accept(aid: AttId)
    | Lose(aid: AttId)
    | Reveal(id: OrderId)
    | Finish(id: OrderId, status: OrderStatus)
    // an execution job
    | Begin(w: WorkerId, pid: PropId)
    | Load(w: WorkerId)
    | Screen(w: WorkerId)
    | Revalidate(w: WorkerId, verdict: Option<P.Revalidation>)
    | Defer(w: WorkerId)
    | SendTransaction(w: WorkerId)
    | Refuse(w: WorkerId)
    | Transmit(w: WorkerId, left: bool)
    | Return(w: WorkerId, event: T.TransportEvent)
    | Record(w: WorkerId)
    // crash recovery
    | FindStranded(w: WorkerId, aid: AttId)
    | MarkAmbiguous(w: WorkerId)
    // a reconciliation pass
    | ReadFacts(w: WorkerId, aid: AttId)
    | Lookup(w: WorkerId, result: Conclusion)
    | ReadPending(w: WorkerId, reply: Reply)
    | ReadHistory(w: WorkerId, reply: Reply)
    | Conclude(w: WorkerId)
    | RecordPass(w: WorkerId)
    | Crash(w: WorkerId)

  // ---------------------------------------------------------------- what the broker knows

  predicate Owns(orders: seq<Order>, id: OrderId, aid: AttId) {
    id < |orders| && orders[id].owner == Some(aid)
  }

  /** Nothing of the attempt is at the broker or on its way there. */
  ghost predicate NoTrace(s: State, aid: AttId) {
    aid !in s.transit && forall id :: 0 <= id < |s.orders| ==> !Owns(s.orders, id, aid)
  }

  /** What the transport and the broker vouch for when a transmission comes back: an error from before
      the request line proves nothing left, a documented refusal proves no order was made, and a
      readable acknowledgement names the order that was. */
  ghost predicate Truthful(s: State, aid: AttId, event: T.TransportEvent) {
    match event
    case WrongEnvironment => NoTrace(s, aid)
    case BeforeRequestLine => NoTrace(s, aid)
    case Response(code, body) =>
      && (T.DefiniteRefusal(code) ==> NoTrace(s, aid))
      && (T.Success(code) && body.Parsed? ==> Owns(s.orders, body.order, aid))
    case _ => true
  }

  function FactsOf(db: Db, aid: AttId): Facts
    requires aid < |db.attempts|
  {
    var a := db.attempts[aid];
    Facts(aid, a.ticker, a.signed, a.sentAt, a.orderId)
  }

  function Unresolved(o: Outcome): bool {
    o.Pending? || o.Ambiguous? || o.Submitted?
  }

  function OrderFor(s: State, aid: AttId): Order
    requires aid < |s.db.attempts|
  {
    var a := s.db.attempts[aid];
    Order(Some(aid), a.ticker, a.signed, true, true, s.clock, Working, false, true)
  }

  // ---------------------------------------------------------------- steps

  predicate At(s: State, w: WorkerId) {
    w in s.workers
  }

  function Put(s: State, w: WorkerId, pc: Pc): State {
    s.(workers := s.workers[w := pc])
  }

  function Done(s: State, w: WorkerId): State {
    s.(workers := s.workers - {w})
  }

  /** The worker ends; its transaction committed, or rolled back and left the ledger as it was. */
  function Settle(s: State, w: WorkerId, r: Option<Db>): State {
    Done(if r.Some? then s.(db := r.value) else s, w)
  }

  predicate Known(db: Db, aid: AttId) {
    aid < |db.attempts| && db.attempts[aid].proposal < |db.proposals|
  }

  /** Asking about a known order id finds that order or leaves the question open. */
  predicate LookupAnswer(orders: seq<Order>, id: OrderId, result: Conclusion) {
    match result
    case OrderFound(order, status) =>
      order == id && id < |orders| && orders[id].readable && status == orders[id].status
    case OrderNotPlaced => false
    case MultipleCandidates(_) => false
    case _ => true
  }

  /** What everyone else may do to a proposal row: rewrite it before execution has begun, along a legal
      move other than into execution, or write columns the protocol does not read. */
  predicate EditAllowed(p: Proposal, row: Proposal) {
    || row == p.(version := row.version)
    || (PreExecution(p.status) && row.status != Executing && (row.status == p.status || CanTransition(p.status, row.status)))
  }

  ghost predicate Enabled(c: Config, s: State, step: Step) {
    match step
    case Tick(to) => s.clock <= to
    case SetControl(_) => true
    case Create(row) => PreExecution(row.status) && OneActivePerTicker(s.db.proposals + [row])
    case Edit(pid, row) =>
      && pid < |s.db.proposals| && row.version == s.db.proposals[pid].version + 1
      && OneActivePerTicker(s.db.proposals[pid := row])
      && EditAllowed(s.db.proposals[pid], row)
    case Cancel(pid) => pid < |s.db.proposals| && CanTransition(s.db.proposals[pid].status, Cancelled)
    case Place(order) => order.owner.None? && !(order.byApi && order.market) && order.createdAt <= s.clock
    case Accept(aid) => aid in s.transit && aid < |s.db.attempts|
    case Lose(aid) => aid in s.transit
    case Reveal(id) => id < |s.orders|
    case Finish(id, status) => id < |s.orders| && s.orders[id].pending && status != Working
    case Begin(w, pid) =>
      !At(s, w) && pid < |s.db.proposals| && !HasSent(s.db.attempts, pid) && Executable(s.db.proposals[pid].status)
    case Load(w) => At(s, w) && s.workers[w].Opened? && s.workers[w].pid < |s.db.proposals|
    case Screen(w) => At(s, w) && s.workers[w].Loaded?
    case Revalidate(w, _) => At(s, w) && s.workers[w].Screened? && s.workers[w].pid < |s.db.proposals|
    case Defer(w) => At(s, w) && s.workers[w].Cleared?
    case SendTransaction(w) => At(s, w) && s.workers[w].Cleared? && s.workers[w].pid < |s.db.proposals|
    case Refuse(w) => At(s, w) && s.workers[w].Refusing? && s.workers[w].pid < |s.db.proposals|
    case Transmit(w, left) =>
      && At(s, w) && s.workers[w].Committed? && Known(s.db, s.workers[w].aid)
      && (left ==> s.db.attempts[s.workers[w].aid].signed != 0)
    case Return(w, event) =>
      At(s, w) && s.workers[w].Posting? && Known(s.db, s.workers[w].aid) && Truthful(s, s.workers[w].aid, event)
    case Record(w) => At(s, w) && s.workers[w].Returned? && Known(s.db, s.workers[w].aid)
    case FindStranded(w, aid) =>
      !At(s, w) && Known(s.db, aid) && s.db.attempts[aid].sent && s.db.attempts[aid].outcome == Pending
    case MarkAmbiguous(w) => At(s, w) && s.workers[w].Recovering? && Known(s.db, s.workers[w].aid)
    case ReadFacts(w, aid) => !At(s, w) && Known(s.db, aid) && Unresolved(s.db.attempts[aid].outcome)
    case Lookup(w, result) =>
      && At(s, w) && s.workers[w].Searching? && s.workers[w].f.orderId.Some?
      && LookupAnswer(s.orders, s.workers[w].f.orderId.value, result)
    case ReadPending(w, reply) =>
      && At(s, w) && s.workers[w].Searching? && s.workers[w].f.orderId.None?
      && (reply.Answered? ==> PendingAnswer(s.orders, reply.orders))
    case ReadHistory(w, reply) =>
      && At(s, w) && s.workers[w].PendingRead?
      && (reply.Answered? ==> HistoryAnswer(s.orders, reply.orders, s.workers[w].f.ticker))
    case Conclude(w) => At(s, w) && s.workers[w].HistoryRead?
    case RecordPass(w) => At(s, w) && s.workers[w].Concluding? && Known(s.db, s.workers[w].f.attempt)
    case Crash(w) => At(s, w)
  }

  /** A sent attempt anchors the search window; without a send time the clock of the read does. */
  function Since(c: Config, f: Facts, clock: int): int {
    (if f.sentAt.Some? then f.sentAt.value else clock) - c.window
  }

  function Until(c: Config, f: Facts, now: int): int {
    (if f.sentAt.Some? then f.sentAt.value else now) + c.window
  }

  ghost function Conclusions(c: Config, s: State, pc: Pc): Conclusion
    requires pc.HistoryRead?
  {
    Decide(Candidates(pc.found, pc.f.ticker, pc.since, Until(c, pc.f, pc.now)), pc.f,
           ClaimedElsewhere(s.db.mirrors, pc.f.attempt), pc.ok, c.settle, pc.now)
  }

  /** Revalidation re-reads the row, and passes only when no risk reason is left. */
  ghost function AfterRevalidation(pc: Pc, again: Proposal, verdict: Option<P.Revalidation>): Pc
    requires pc.Screened?
  {
    if verdict.None? then Refusing(pc.pid, pc.now, pc.row, None, false)
    else if P.RiskGates(pc.row, verdict.value) then Cleared(pc.pid, pc.now, pc.row, again, verdict.value)
    else Refusing(pc.pid, pc.now, pc.row, verdict, !P.Transient(set r | r in verdict.value.blocked))
  }

  /** The transaction an answer is recorded with. */
  function Recorded(db: Db, aid: AttId, answer: T.Submission): Option<Db>
    requires Known(db, aid)
  {
    match answer
    case Acknowledged(order, status) => RecordSuccess(db, aid, order, status)
    case Rejected(_) => RecordRejection(db, aid)
    case NotTransmitted => RetractUnsent(db, aid)
    case Unknown(_) => RecordAmbiguous(db, aid)
  }

  ghost function Apply(c: Config, s: State, step: Step): State
    requires Enabled(c, s, step)
  {
    match step
    case Tick(to) => s.(clock := to)
    case SetControl(control) => s.(control := control)
    case Create(row) => s.(db := s.db.(proposals := s.db.proposals + [row]))
    case Edit(pid, row) => s.(db := s.db.(proposals := s.db.proposals[pid := row]))
    case Cancel(pid) => s.(db := s.db.(proposals := s.db.proposals[pid := s.db.proposals[pid].Moved(Cancelled)]))
    case Place(order) => s.(orders := s.orders + [order])
    case Accept(aid) => s.(orders := s.orders + [OrderFor(s, aid)], transit := s.transit - {aid})
    case Lose(aid) => s.(transit := s.transit - {aid})
    case Reveal(id) => s.(orders := s.orders[id := s.orders[id].(readable := true)])
    case Finish(id, status) => s.(orders := s.orders[id := s.orders[id].(pending := false, status := status)])
    case Begin(w, pid) => Put(s, w, Opened(pid, s.clock))
    case Load(w) => Put(s, w, Loaded(s.workers[w].pid, s.workers[w].now, s.db.proposals[s.workers[w].pid]))
    case Screen(w) =>
      var pc := s.workers[w];
      if P.LocalGates(c.settings, pc.row, s.control, pc.now, false)
      then Put(s, w, Screened(pc.pid, pc.now, pc.row))
      else Put(s, w, Refusing(pc.pid, pc.now, pc.row, None, false))
    case Revalidate(w, verdict) =>
      Put(s, w, AfterRevalidation(s.workers[w], s.db.proposals[s.workers[w].pid], verdict))
    case Defer(w) =>
      var pc := s.workers[w];
      Put(s, w, Refusing(pc.pid, pc.now, pc.row, Some(pc.verdict), false))
    case SendTransaction(w) =>
      var pc := s.workers[w];
      var r := Claim(s.db, pc.pid, pc.row.version, pc.row.ticker, pc.row.Signed(), s.control.Halted(), pc.now);
      if r.None? then Done(s, w) else Put(s.(db := r.value), w, Committed(|s.db.attempts|))
    case Refuse(w) =>
      var pc := s.workers[w];
      Done(s.(db := RecordRefusal(s.db, pc.pid, pc.row.ticker, pc.row.Signed(), pc.invalidates)), w)
    case Transmit(w, left) =>
      var aid := s.workers[w].aid;
      Put(s.(transit := if left then s.transit + {aid} else s.transit, posts := s.posts + multiset{aid}), w, Posting(aid))
    case Return(w, event) =>
      var aid := s.workers[w].aid;
      Put(s, w, Returned(aid, T.Classify(s.db.attempts[aid].signed, event)))
    case Record(w) => Settle(s, w, Recorded(s.db, s.workers[w].aid, s.workers[w].answer))
    case FindStranded(w, aid) => Put(s, w, Recovering(aid))
    case MarkAmbiguous(w) => Settle(s, w, RecordAmbiguous(s.db, s.workers[w].aid))
    case ReadFacts(w, aid) => Put(s, w, Searching(FactsOf(s.db, aid), s.clock))
    case Lookup(w, result) => Put(s, w, Concluding(s.workers[w].f, s.workers[w].now, false, result))
    case ReadPending(w, reply) =>
      var pc := s.workers[w];
      Put(s, w, PendingRead(pc.f, pc.now, PendingFound(reply), reply.Answered?, Since(c, pc.f, s.clock)))
    case ReadHistory(w, reply) =>
      var pc := s.workers[w];
      Put(s, w, HistoryRead(pc.f, pc.now, AllFound(pc.found, reply), pc.ok && reply.Answered?, pc.since))
    case Conclude(w) =>
      Put(s, w, Concluding(s.workers[w].f, s.workers[w].now, true, Conclusions(c, s, s.workers[w])))
    case RecordPass(w) => Settle(s, w, RecordConclusion(s.db, s.workers[w].f.attempt, s.workers[w].result))
    case Crash(w) => Done(s, w)
  }

  ghost predicate Initial(s: State) {
    s.db == Db([], [], map[]) && s.orders == [] && s.transit == {} && s.posts == multiset{} && s.workers == map[]
  }

  ghost predicate Next(c: Config, s: State, step: Step, s': State) {
    Enabled(c, s, step) && s' == Apply(c, s, step)
  }

  /** A finite run from an empty ledger. */
  ghost predicate Run(c: Config, states: seq<State>, steps: seq<Step>) {
    && |states| == |steps| + 1 && Initial(states[0])
    && forall i :: 0 <= i < |steps| ==> Next(c, states[i], steps[i], states[i + 1])
  }
}
