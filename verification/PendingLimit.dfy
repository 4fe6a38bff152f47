/** The per-listing limit on pending orders: what one check decides, and how far the number of pending
    orders can pass the ceiling when several workers check and send concurrently and the broker's list
    lags behind its own orders. */
module PendingLimit {
  import opened Wrappers
  import opened Matching
  import L = Ledger
  import Basics

  /** One listing, and the limits that are configured for every listing. */
  datatype Limits = Limits(ticker: string, limit: int, headroom: int)
  {
    function Ceiling(): nat {
      if limit - headroom < 0 then 0 else limit - headroom
    }
  }

  datatype PendingOrderCount = PendingOrderCount(pending: nat, apiInitiated: nat, readOk: bool)

  function ForTicker(list: seq<View>, ticker: string): seq<View> {
    if list == [] then []
    else
      var before := ForTicker(list[..|list| - 1], ticker);
      if list[|list| - 1].ticker == Some(ticker) then before + [list[|list| - 1]] else before
  }

  function ByApi(list: seq<View>): nat {
    if list == [] then 0 else ByApi(list[..|list| - 1]) + (if list[|list| - 1].byApi then 1 else 0)
  }

  /** A failed read is reported as such, never as a count of zero that could be acted on. */
  function CountPending(reply: Reply, ticker: string): PendingOrderCount {
    match reply
    case ReadFailed => PendingOrderCount(0, 0, false)
    case Answered(list) =>
      var matching := ForTicker(list, ticker);
      PendingOrderCount(|matching|, ByApi(matching), true)
  }

  /** Every pending order of the listing counts, whoever queued it: the count is the size of the
      bag of the list's entries that name the listing, and the API's share is part of it. */
  lemma {:induction false} CountsEveryOrder(list: seq<View>, ticker: string)
    ensures var c := CountPending(Answered(list), ticker);
            c.readOk && c.pending == |multiset(ForTicker(list, ticker))| && c.apiInitiated <= c.pending
    ensures forall v: View :: v.ticker == Some(ticker) ==> multiset(ForTicker(list, ticker))[v] == multiset(list)[v]
    ensures forall v: View :: v.ticker != Some(ticker) ==> v !in ForTicker(list, ticker)
  {
    if list != [] {
      var init := list[..|list| - 1];
      CountsEveryOrder(init, ticker);
      assert list == init + [list[|list| - 1]];
    }
    FewByApi(ForTicker(list, ticker));
  }

  lemma {:induction false} FewByApi(list: seq<View>)
    ensures ByApi(list) <= |list|
  {
    if list != [] { FewByApi(list[..|list| - 1]); }
  }

  /** The positions of a list whose entries name the listing. */
  function Naming(list: seq<View>, ticker: string): set<nat> {
    set i: nat | i < |list| && list[i].ticker == Some(ticker)
  }

  /** Those of them the API placed. */
  function ApiNaming(list: seq<View>, ticker: string): set<nat> {
    set i: nat | i < |list| && list[i].ticker == Some(ticker) && list[i].byApi
  }

  lemma {:induction false} CountIsNaming(list: seq<View>, ticker: string)
    ensures |ForTicker(list, ticker)| == |Naming(list, ticker)|
  {
    if list == [] {
      assert Naming(list, ticker) == {};
    } else {
      var n := |list| - 1;
      CountIsNaming(list[..n], ticker);
      assert Naming(list, ticker) == Naming(list[..n], ticker) + (if list[n].ticker == Some(ticker) then {n} else {});
    }
  }

  lemma {:induction false} ApiCountIsNaming(list: seq<View>, ticker: string)
    ensures ByApi(ForTicker(list, ticker)) == |ApiNaming(list, ticker)|
  {
    if list == [] {
      assert ApiNaming(list, ticker) == {};
    } else {
      hide ByApi, ApiNaming;
      var n := |list| - 1;
      ApiCountIsNaming(list[..n], ticker);
      AppendApi(ForTicker(list[..n], ticker), list[n]);
      LastApiNaming(list, ticker);
    }
  }

  lemma LastApiNaming(list: seq<View>, ticker: string)
    requires list != []
    ensures var n := |list| - 1;
            |ApiNaming(list, ticker)| ==
              |ApiNaming(list[..n], ticker)| + (if list[n].ticker == Some(ticker) && list[n].byApi then 1 else 0)
  {
    var n := |list| - 1;
    assert ApiNaming(list, ticker) ==
           ApiNaming(list[..n], ticker) + (if list[n].ticker == Some(ticker) && list[n].byApi then {n} else {});
  }

  /** What is reported of a list that was read: how many entries name the listing, and how many of those the
      API placed. */
  lemma CountedExactly(list: seq<View>, ticker: string)
    ensures var c := CountPending(Answered(list), ticker);
            c.readOk && c.pending == |Naming(list, ticker)| && c.apiInitiated == |ApiNaming(list, ticker)|
  {
    CountIsNaming(list, ticker);
    ApiCountIsNaming(list, ticker);
  }

  lemma AppendApi(list: seq<View>, v: View)
    ensures ByApi(list + [v]) == ByApi(list) + (if v.byApi then 1 else 0)
  {
    assert (list + [v])[..|list|] == list;
  }

  function Max(a: nat, b: nat): nat {
    if a < b then b else a
  }

  /** The check passes: both counts were read, and one more order stays under the ceiling. */
  predicate Permits(l: Limits, count: PendingOrderCount, local: nat) {
    count.readOk && Max(count.pending, local) + 1 <= l.Ceiling()
  }

  /** A send is permitted exactly when the broker's list was read, and neither the entries that name the
      listing nor the local count, with this order and the headroom added, pass the limit. */
  lemma PermitsExactly(l: Limits, reply: Reply, local: nat)
    ensures Permits(l, CountPending(reply, l.ticker), local) <==>
              && reply.Answered?
              && |Naming(reply.orders, l.ticker)| + 1 + l.headroom <= l.limit
              && local + 1 + l.headroom <= l.limit
  {
    if reply.Answered? { CountIsNaming(reply.orders, l.ticker); }
  }

  // ---------------------------------------------------------------- many workers, one listing

  type WorkerId = nat

  datatype Phase = Counted(count: PendingOrderCount) | Passed | Claimed

  /** Orders the broker lists, orders it holds but does not list yet, and our own transmitted attempts
      without a result. Workers absent from the map are not sending for this listing. */
  datatype State = State(listed: nat, hidden: nat, unresolved: nat, workers: map<WorkerId, Phase>)

  datatype Step =
    | ReadList(w: WorkerId, reply: Reply)
    | Decide(w: WorkerId)
    | Abandon(w: WorkerId)
    | Claim(w: WorkerId)
    | Post(w: WorkerId, made: bool)
    | Resolve
    | Appear
    | FinishListed
    | FinishHidden

  predicate Enabled(l: Limits, s: State, step: Step) {
    match step
    case ReadList(w, reply) => w !in s.workers && (reply.Answered? ==> |Naming(reply.orders, l.ticker)| == s.listed)
    case Decide(w) => w in s.workers && s.workers[w].Counted?
    case Abandon(w) => w in s.workers
    case Claim(w) => w in s.workers && s.workers[w].Passed?
    case Post(w, _) => w in s.workers && s.workers[w].Claimed?
    case Resolve => s.unresolved > 0
    case Appear => s.hidden > 0
    case FinishListed => s.listed > 0
    case FinishHidden => s.hidden > 0
  }

  function Apply(l: Limits, s: State, step: Step): State
    requires Enabled(l, s, step)
  {
    match step
    case ReadList(w, reply) => s.(workers := s.workers[w := Counted(CountPending(reply, l.ticker))])
    case Decide(w) =>
      if Permits(l, s.workers[w].count, s.unresolved) then s.(workers := s.workers[w := Passed])
      else s.(workers := s.workers - {w})
    case Abandon(w) => s.(workers := s.workers - {w})
    case Claim(w) => s.(unresolved := s.unresolved + 1, workers := s.workers[w := Claimed])
    case Post(w, made) => s.(hidden := s.hidden + (if made then 1 else 0), workers := s.workers - {w})
    case Resolve => s.(unresolved := s.unresolved - 1)
    case Appear => s.(listed := s.listed + 1, hidden := s.hidden - 1)
    case FinishListed => s.(listed := s.listed - 1)
    case FinishHidden => s.(hidden := s.hidden - 1)
  }

  const START := State(0, 0, 0, map[])

  /** A run by workers of `crew`, in which a list that is read never lacks more than `lag` orders. */
  ghost predicate Run(l: Limits, crew: set<WorkerId>, lag: nat, states: seq<State>, steps: seq<Step>) {
    && |states| == |steps| + 1 && states[0] == START
    && (forall i :: 0 <= i < |steps| ==> Enabled(l, states[i], steps[i]) && states[i + 1] == Apply(l, states[i], steps[i]))
    && (forall i :: 0 <= i < |steps| && steps[i].ReadList? ==> steps[i].w in crew && states[i].hidden <= lag)
  }

  /** A worker that may still post on what it has read. */
  predicate Engaged(l: Limits, p: Phase) {
    p.Counted? ==> p.count.readOk && p.count.pending + 1 <= l.Ceiling()
  }

  function EngagedWorkers(l: Limits, s: State): set<WorkerId> {
    set w | w in s.workers && Engaged(l, s.workers[w])
  }

  /** The workers that passed the check and have not posted. */
  function PassedWorkers(s: State): set<WorkerId> {
    set w | w in s.workers && !s.workers[w].Counted?
  }

  ghost predicate Bounded(l: Limits, crew: set<WorkerId>, lag: nat, s: State) {
    && s.workers.Keys <= crew
    && s.listed + s.hidden + |EngagedWorkers(l, s)| <= l.Ceiling() + lag + |crew| - 1
  }

  /** Leaving, or moving on, never engages a worker; posting trades the engagement for the order. */
  lemma StepBounded(l: Limits, crew: set<WorkerId>, lag: nat, s: State, step: Step)
    requires Enabled(l, s, step) && Bounded(l, crew, lag, s)
    requires step.ReadList? ==> step.w in crew && s.hidden <= lag
    ensures Bounded(l, crew, lag, Apply(l, s, step))
  {
    var s' := Apply(l, s, step);
    var before, after := EngagedWorkers(l, s), EngagedWorkers(l, s');
    match step {
      case ReadList(w, reply) =>
        if reply.Answered? { CountIsNaming(reply.orders, l.ticker); }
        if Engaged(l, s'.workers[w]) { Basics.SubsetSize(after, crew); } else { assert after == before; }
      case Post(w, made) => assert after == before - {w} && w in before;
      case Decide(w) => Basics.SubsetSize(after, before);
      case Abandon(w) => Basics.SubsetSize(after, before);
      case Claim(w) => assert after == before;
      case _ => assert after == before;
    }
  }

  lemma {:induction false} RunBounded(l: Limits, crew: set<WorkerId>, lag: nat, states: seq<State>, steps: seq<Step>, i: nat)
    requires Run(l, crew, lag, states, steps) && i < |states| && crew != {}
    ensures Bounded(l, crew, lag, states[i])
  {
    if i == 0 {
      assert EngagedWorkers(l, states[0]) == {};
    } else {
      RunBounded(l, crew, lag, states, steps, i - 1);
      assert Enabled(l, states[i - 1], steps[i - 1]) && states[i - 1 + 1] == Apply(l, states[i - 1], steps[i - 1]);
      StepBounded(l, crew, lag, states[i - 1], steps[i - 1]);
    }
  }

  /** With W workers and a list that lacks at most `lag` orders, pending orders plus the workers that
      passed the check but have not posted never exceed the ceiling by more than lag + W - 1. */
  lemma NeverPastTheCeiling(l: Limits, crew: set<WorkerId>, lag: nat, states: seq<State>, steps: seq<Step>, i: nat)
    requires Run(l, crew, lag, states, steps) && i < |states| && crew != {}
    ensures var s := states[i];
            s.listed + s.hidden + |PassedWorkers(s)| <= l.Ceiling() + lag + |crew| - 1
  {
    RunBounded(l, crew, lag, states, steps, i);
    Basics.SubsetSize(PassedWorkers(states[i]), EngagedWorkers(l, states[i]));
  }

  /** The workers that passed the check and have not claimed. */
  function ReadyWorkers(s: State): set<WorkerId> {
    set w | w in s.workers && s.workers[w].Passed?
  }

  /** Whatever the broker's list shows, the local count alone keeps the transmissions without a result,
      with those about to be claimed, within the ceiling and the other workers. */
  lemma {:induction false} UnresolvedStayBounded(l: Limits, crew: set<WorkerId>, lag: nat, states: seq<State>, steps: seq<Step>, i: nat)
    requires Run(l, crew, lag, states, steps) && i < |states| && crew != {}
    ensures states[i].workers.Keys <= crew
    ensures states[i].unresolved + |ReadyWorkers(states[i])| <= l.Ceiling() + |crew| - 1
  {
    if i == 0 {
      assert ReadyWorkers(states[0]) == {};
    } else {
      UnresolvedStayBounded(l, crew, lag, states, steps, i - 1);
      var s, step, s' := states[i - 1], steps[i - 1], states[i - 1 + 1];
      assert Enabled(l, s, step) && s' == Apply(l, s, step);
      var before, after := ReadyWorkers(s), ReadyWorkers(s');
      match step {
        case Decide(w) => if w in s'.workers { Basics.SubsetSize(after, crew); } else { Basics.SubsetSize(after, before); }
        case Claim(w) => assert after == before - {w} && w in before;
        case _ => Basics.SubsetSize(after, before);
      }
    }
  }

  // ---------------------------------------------------------------- an unread list never sends

  /** Whoever is about to post read the broker's list, and read it successfully, after it last left. */
  lemma {:induction false} UnreadNeverSends(l: Limits, crew: set<WorkerId>, lag: nat, states: seq<State>, steps: seq<Step>,
                                            i: nat, w: WorkerId) returns (k: nat)
    requires Run(l, crew, lag, states, steps) && i < |states| && w in states[i].workers
    requires states[i].workers[w].Counted? ==> states[i].workers[w].count.readOk
    ensures k < i && steps[k].ReadList? && steps[k].w == w && steps[k].reply.Answered?
    ensures forall j :: k < j <= i ==> w in states[j].workers
  {
    assert i > 0;
    var s, step := states[i - 1], steps[i - 1];
    assert Enabled(l, s, step) && states[i - 1 + 1] == Apply(l, s, step);
    if w in s.workers {
      k := UnreadNeverSends(l, crew, lag, states, steps, i - 1, w);
    } else {
      k := i - 1;
    }
  }

  // ---------------------------------------------------------------- the bound is tight, and lag matters

  ghost predicate Reaches(l: Limits, crew: set<WorkerId>, lag: nat, s: State) {
    exists states, steps :: Run(l, crew, lag, states, steps) && states[|steps|] == s
  }

  lemma Extend(l: Limits, crew: set<WorkerId>, lag: nat, s: State, step: Step)
    requires Reaches(l, crew, lag, s) && Enabled(l, s, step)
    requires step.ReadList? ==> step.w in crew && s.hidden <= lag
    ensures Reaches(l, crew, lag, Apply(l, s, step))
  {
    var states, steps :| Run(l, crew, lag, states, steps) && states[|steps|] == s;
    var states', steps' := states + [Apply(l, s, step)], steps + [step];
    assert Run(l, crew, lag, states', steps') && states'[|steps'|] == Apply(l, s, step);
  }

  lemma StartReached(l: Limits, crew: set<WorkerId>, lag: nat)
    ensures Reaches(l, crew, lag, START)
  {
    var none: seq<Step> := [];
    assert Run(l, crew, lag, [START], none) && [START][|none|] == START;
  }

  /** A list of so many orders of the listing. */
  function Entries(n: nat, ticker: string): seq<View> {
    seq(n, (i: nat) => View(i, Some(ticker), None, L.Working, true, true, None))
  }

  lemma {:induction false} EntriesName(n: nat, ticker: string)
    ensures |Naming(Entries(n, ticker), ticker)| == n == CountPending(Answered(Entries(n, ticker)), ticker).pending
  {
    CountIsNaming(Entries(n, ticker), ticker);
    if n == 0 {
      assert Naming(Entries(0, ticker), ticker) == {};
    } else {
      EntriesName(n - 1, ticker);
      assert Naming(Entries(n, ticker), ticker) == Naming(Entries(n - 1, ticker), ticker) + {n - 1};
    }
  }

  /** One worker sends once: it checks, claims, posts, and its answer is recorded before the broker's
      list shows the order. The local count does not stand in for the list: a recorded answer no longer
      counts. */
  lemma SendHidden(l: Limits, crew: set<WorkerId>, lag: nat, w: WorkerId, listed: nat, hidden: nat)
    requires Reaches(l, crew, lag, State(listed, hidden, 0, map[])) && w in crew
    requires hidden <= lag && listed + 1 <= l.Ceiling()
    ensures Reaches(l, crew, lag, State(listed, hidden + 1, 0, map[]))
  {
    var s := State(listed, hidden, 0, map[]);
    var steps := [ReadList(w, Answered(Entries(listed, l.ticker))), Decide(w), Claim(w), Post(w, true), Resolve];
    EntriesName(listed, l.ticker);
    hide Reaches, Naming, ForTicker, ByApi;
    Extend(l, crew, lag, s, steps[0]);
    var a := Apply(l, s, steps[0]);
    Extend(l, crew, lag, a, steps[1]);
    var b := Apply(l, a, steps[1]);
    Extend(l, crew, lag, b, steps[2]);
    var c := Apply(l, b, steps[2]);
    Extend(l, crew, lag, c, steps[3]);
    var d := Apply(l, c, steps[3]);
    Extend(l, crew, lag, d, steps[4]);
    assert Apply(l, d, steps[4]) == State(listed, hidden + 1, 0, map[]);
  }

  lemma {:induction false} FillListed(l: Limits, crew: set<WorkerId>, lag: nat, w: WorkerId, n: nat)
    requires w in crew && n < l.Ceiling()
    ensures Reaches(l, crew, lag, State(n, 0, 0, map[]))
  {
    if n == 0 {
      StartReached(l, crew, lag);
    } else {
      hide Reaches;
      FillListed(l, crew, lag, w, n - 1);
      SendHidden(l, crew, lag, w, n - 1, 0);
      Extend(l, crew, lag, State(n - 1, 1, 0, map[]), Appear);
    }
  }

  lemma {:induction false} FillHidden(l: Limits, crew: set<WorkerId>, lag: nat, w: WorkerId, n: nat)
    requires w in crew && l.Ceiling() >= 1 && n <= lag
    ensures Reaches(l, crew, lag, State(l.Ceiling() - 1, n, 0, map[]))
  {
    if n == 0 {
      FillListed(l, crew, lag, w, l.Ceiling() - 1);
    } else {
      hide Reaches;
      FillHidden(l, crew, lag, w, n - 1);
      SendHidden(l, crew, lag, w, l.Ceiling() - 1, n - 1);
    }
  }

  /** `passed` have decided, the other members of `some` have read the same list. */
  function Reading(l: Limits, lag: nat, some: set<WorkerId>, passed: set<WorkerId>): State
    requires l.Ceiling() >= 1
  {
    var n := l.Ceiling() - 1;
    State(n, lag, 0, map w | w in some :: if w in passed then Passed else Counted(CountPending(Answered(Entries(n, l.ticker)), l.ticker)))
  }

  lemma {:induction false} AllRead(l: Limits, crew: set<WorkerId>, lag: nat, some: set<WorkerId>)
    requires some <= crew && crew != {} && l.Ceiling() >= 1
    ensures Reaches(l, crew, lag, Reading(l, lag, some, {}))
  {
    if some == {} {
      var w :| w in crew;
      FillHidden(l, crew, lag, w, lag);
      assert Reading(l, lag, {}, {}) == State(l.Ceiling() - 1, lag, 0, map[]);
    } else {
      var w :| w in some;
      AllRead(l, crew, lag, some - {w});
      var s := Reading(l, lag, some - {w}, {});
      var reply := Answered(Entries(l.Ceiling() - 1, l.ticker));
      EntriesName(l.Ceiling() - 1, l.ticker);
      Extend(l, crew, lag, s, ReadList(w, reply));
      assert Apply(l, s, ReadList(w, reply)) == Reading(l, lag, some, {});
    }
  }

  lemma {:induction false} AllPass(l: Limits, crew: set<WorkerId>, lag: nat, passed: set<WorkerId>)
    requires passed <= crew && crew != {} && l.Ceiling() >= 1
    ensures Reaches(l, crew, lag, Reading(l, lag, crew, passed))
  {
    if passed == {} {
      AllRead(l, crew, lag, crew);
    } else {
      var w :| w in passed;
      AllPass(l, crew, lag, passed - {w});
      var s := Reading(l, lag, crew, passed - {w});
      EntriesName(l.Ceiling() - 1, l.ticker);
      Extend(l, crew, lag, s, Decide(w));
      assert Apply(l, s, Decide(w)) == Reading(l, lag, crew, passed);
    }
  }

  /** Pending orders, with the workers that passed the check and have not posted. */
  function Exposure(s: State): nat {
    s.listed + s.hidden + |PassedWorkers(s)|
  }

  /** The bound is attained for every ceiling, every crew and every lag. */
  lemma BoundIsAttained(l: Limits, crew: set<WorkerId>, lag: nat) returns (s: State)
    requires crew != {} && l.Ceiling() >= 1
    ensures Reaches(l, crew, lag, s) && Exposure(s) == l.Ceiling() + lag + |crew| - 1
  {
    hide Reaches;
    AllPass(l, crew, lag, crew);
    s := Reading(l, lag, crew, crew);
    assert PassedWorkers(s) == crew;
  }

  /** A ceiling of nothing lets nothing through. */
  lemma {:induction false} ClosedStaysEmpty(l: Limits, crew: set<WorkerId>, lag: nat, states: seq<State>, steps: seq<Step>, i: nat)
    requires Run(l, crew, lag, states, steps) && i < |states| && l.Ceiling() == 0
    ensures states[i].listed == 0 && states[i].hidden == 0
    ensures forall w :: w in states[i].workers ==> states[i].workers[w].Counted?
  {
    if i > 0 {
      ClosedStaysEmpty(l, crew, lag, states, steps, i - 1);
      assert Enabled(l, states[i - 1], steps[i - 1]) && states[i - 1 + 1] == Apply(l, states[i - 1], steps[i - 1]);
    }
  }

  /** Lag is the whole of the gap: for any crew, pending orders and the workers about to post stay within
      ceiling + W - 1 in every run exactly when the list never lags, or nothing may be sent at all. */
  lemma CeilingHoldsExactly(l: Limits, crew: set<WorkerId>, lag: nat)
    requires crew != {}
    ensures (forall s :: Reaches(l, crew, lag, s) ==> Exposure(s) <= l.Ceiling() + |crew| - 1) <==>
              lag == 0 || l.Ceiling() == 0
  {
    if lag == 0 || l.Ceiling() == 0 {
      forall s | Reaches(l, crew, lag, s) ensures Exposure(s) <= l.Ceiling() + |crew| - 1 {
        var states, steps :| Run(l, crew, lag, states, steps) && states[|steps|] == s;
        if lag == 0 {
          NeverPastTheCeiling(l, crew, lag, states, steps, |steps|);
        } else {
          ClosedStaysEmpty(l, crew, lag, states, steps, |steps|);
          RunBounded(l, crew, lag, states, steps, |steps|);
          assert PassedWorkers(s) == {};
          Basics.SubsetSize({}, crew);
          var w :| w in crew;
          Basics.SubsetSize({w}, crew);
        }
      }
    } else {
      var s := BoundIsAttained(l, crew, lag);
    }
  }
}
