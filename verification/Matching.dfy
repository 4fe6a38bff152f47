/** Searching the broker for the order an attempt created: the two-read merge, the narrow match, and
    what a search is allowed to conclude. */
module Matching {
  import opened Wrappers
  import opened Ledger
  import Basics

  /** One order as the broker holds it. `owner` is ghost knowledge: the attempt whose request created
      it, or None for an order placed some other way. */
  datatype Order = Order(
    owner: Option<AttId>, ticker: string, signed: int, market: bool, byApi: bool,
    createdAt: int, status: OrderStatus, readable: bool, pending: bool)

  /** The same order as the read endpoints report it; any field may be missing. */
  datatype View = View(
    id: OrderId, ticker: Option<string>, signed: Option<int>, status: OrderStatus,
    market: bool, byApi: bool, createdAt: Option<int>)

  datatype Reply = Answered(orders: seq<View>) | ReadFailed

  datatype CandidateSearch = CandidateSearch(
    candidates: map<OrderId, View>, pendingOk: bool, historyOk: bool, scanned: nat)

  /** What matching knows of an attempt, read once. */
  datatype Facts = Facts(attempt: AttId, ticker: string, signed: int, sentAt: Option<int>, orderId: Option<OrderId>)

  function ViewOf(id: OrderId, o: Order): View {
    View(id, Some(o.ticker), Some(o.signed), o.status, o.market, o.byApi, Some(o.createdAt))
  }

  // ---------------------------------------------------------------- the merge

  /** The pending list as a dictionary: a later entry replaces an earlier one. */
  function Indexed(list: seq<View>): map<OrderId, View> {
    if list == [] then map[]
    else Indexed(list[..|list| - 1])[list[|list| - 1].id := list[|list| - 1]]
  }

  /** The history merged in: an order already found keeps the view it was found with. */
  function Merged(found: map<OrderId, View>, list: seq<View>): map<OrderId, View> {
    if list == [] then found
    else
      var before := Merged(found, list[..|list| - 1]);
      var last := list[|list| - 1];
      if last.id in before then before else before[last.id := last]
  }

  function PendingFound(pending: Reply): map<OrderId, View> {
    if pending.Answered? then Indexed(pending.orders) else map[]
  }

  function AllFound(found: map<OrderId, View>, history: Reply): map<OrderId, View> {
    if history.Answered? then Merged(found, history.orders) else found
  }

  predicate InWindow(v: View, ticker: string, since: int, until: int) {
    v.ticker == Some(ticker) && v.createdAt.Some? && since <= v.createdAt.value <= until
  }

  function Candidates(found: map<OrderId, View>, ticker: string, since: int, until: int): map<OrderId, View> {
    map id | id in found && InWindow(found[id], ticker, since, until) :: found[id]
  }

  method FindCandidates(pending: Reply, history: Reply, ticker: string, since: int, until: int)
    returns (search: CandidateSearch)
    ensures search.candidates == Candidates(AllFound(PendingFound(pending), history), ticker, since, until)
    ensures search.pendingOk == pending.Answered? && search.historyOk == history.Answered?
    ensures search.scanned == |AllFound(PendingFound(pending), history)|
  {
    var found: map<OrderId, View> := map[];
    if pending.Answered? {
      for i := 0 to |pending.orders|
        invariant found == Indexed(pending.orders[..i])
      {
        assert pending.orders[..i + 1][..i] == pending.orders[..i];
        found := found[pending.orders[i].id := pending.orders[i]];
      }
      assert pending.orders[..|pending.orders|] == pending.orders;
    }
    ghost var first := found;
    if history.Answered? {
      for i := 0 to |history.orders|
        invariant found == Merged(first, history.orders[..i])
      {
        assert history.orders[..i + 1][..i] == history.orders[..i];
        if history.orders[i].id !in found { found := found[history.orders[i].id := history.orders[i]]; }
      }
      assert history.orders[..|history.orders|] == history.orders;
    }
    search := CandidateSearch(Candidates(found, ticker, since, until), pending.Answered?, history.Answered?, |found|);
  }

  lemma {:induction false} IndexedMeans(list: seq<View>)
    ensures forall v :: v in list ==> v.id in Indexed(list)
    ensures forall id :: id in Indexed(list) ==> Indexed(list)[id] in list && Indexed(list)[id].id == id
  {
    if list != [] { IndexedMeans(list[..|list| - 1]); }
  }

  lemma {:induction false} MergedMeans(found: map<OrderId, View>, list: seq<View>)
    ensures forall v :: v in list ==> v.id in Merged(found, list)
    ensures forall id :: id in found ==> id in Merged(found, list) && Merged(found, list)[id] == found[id]
    ensures forall id :: id in Merged(found, list) && id !in found ==>
              Merged(found, list)[id] in list && Merged(found, list)[id].id == id
  {
    if list != [] { MergedMeans(found, list[..|list| - 1]); }
  }

  /** What each id holds after both reads: the last entry of the pending list that names it, or else the
      first entry of the history that does; and the window keeps exactly the listing's orders created
      inside it, both ends included. */
  lemma {:induction false} LastPendingWins(list: seq<View>, i: nat)
    requires i < |list| && forall j :: i < j < |list| ==> list[j].id != list[i].id
    ensures list[i].id in Indexed(list) && Indexed(list)[list[i].id] == list[i]
  {
    if i < |list| - 1 {
      LastPendingWins(list[..|list| - 1], i);
      assert list[|list| - 1].id != list[i].id;
    }
  }

  lemma {:induction false} FirstHistoryWins(found: map<OrderId, View>, list: seq<View>, i: nat)
    requires i < |list| && list[i].id !in found && forall j :: 0 <= j < i ==> list[j].id != list[i].id
    ensures list[i].id in Merged(found, list) && Merged(found, list)[list[i].id] == list[i]
  {
    var init := list[..|list| - 1];
    MergedMeans(found, init);
    if i < |init| { FirstHistoryWins(found, init, i); }
  }

  lemma WindowExactly(found: map<OrderId, View>, ticker: string, since: int, until: int, id: OrderId)
    ensures var kept := Candidates(found, ticker, since, until);
            && (id in kept <==> id in found && found[id].ticker == Some(ticker) && found[id].createdAt.Some?
                                && since <= found[id].createdAt.value && found[id].createdAt.value <= until)
            && (id in kept ==> kept[id] == found[id])
  {
  }

  // ---------------------------------------------------------------- the match

  predicate Matches(v: View, f: Facts) {
    v.byApi && v.ticker == Some(f.ticker) && v.market && v.signed == Some(f.signed)
  }

  /** The candidates that fit the attempt and are not already mirrored against another one. */
  function MatchIds(candidates: map<OrderId, View>, f: Facts, claimed: set<OrderId>): set<OrderId> {
    set id | id in candidates && Matches(candidates[id], f) && id !in claimed
  }

  function ClaimedElsewhere(mirrors: map<OrderId, AttId>, attempt: AttId): set<OrderId> {
    set o | o in mirrors && mirrors[o] != attempt
  }

  /** What one search concludes. */
  ghost function Decide(candidates: map<OrderId, View>, f: Facts, claimed: set<OrderId>, complete: bool, settle: int, now: int)
    : Conclusion
  {
    var matches := MatchIds(candidates, f, claimed);
    if |matches| == 1 then
      var id :| id in matches;
      OrderFound(id, candidates[id].status)
    else if |matches| > 1 then MultipleCandidates(|matches|)
    else if !complete then BrokerUnavailable
    else if f.sentAt.Some? && now - f.sentAt.value < settle then Inconclusive
    else OrderNotPlaced
  }

  /** Absence is concluded exactly from a complete search past the settle window, or about an attempt that
      carries no send time at all, in which every API-placed market order of the attempt's listing and
      signed quantity is claimed by another attempt. */
  lemma NotPlacedExactly(candidates: map<OrderId, View>, f: Facts, claimed: set<OrderId>, complete: bool, settle: int, now: int)
    ensures Decide(candidates, f, claimed, complete, settle, now).OrderNotPlaced? <==>
              && complete
              && (forall id :: (id in candidates && candidates[id].byApi && candidates[id].market &&
                            candidates[id].ticker == Some(f.ticker) && candidates[id].signed == Some(f.signed)) ==> id in claimed)
              && (f.sentAt.Some? ==> settle <= now - f.sentAt.value)
  {
    NoneMatch(candidates, f, claimed);
  }

  /** And what stays open: several unclaimed orders that fit are never guessed between, a read that failed is
      never absence, and an attempt inside its settle window is left for a later pass. */
  lemma OpenExactly(candidates: map<OrderId, View>, f: Facts, claimed: set<OrderId>, complete: bool, settle: int, now: int)
    ensures var r := Decide(candidates, f, claimed, complete, settle, now);
            var none := forall id :: (id in candidates && candidates[id].byApi && candidates[id].market &&
                            candidates[id].ticker == Some(f.ticker) && candidates[id].signed == Some(f.signed)) ==> id in claimed;
            && (r.BrokerUnavailable? <==> none && !complete)
            && (r.Inconclusive? <==> none && complete && f.sentAt.Some? && now - f.sentAt.value < settle)
            && (r.MultipleCandidates? <==>
                  exists a, b :: a in MatchIds(candidates, f, claimed) && b in MatchIds(candidates, f, claimed) && a != b)
  {
    NoneMatch(candidates, f, claimed);
    var matches := MatchIds(candidates, f, claimed);
    if |matches| > 1 {
      var a, b := MultipleMeans(candidates, f, claimed, complete, settle, now);
    }
    forall a, b | a in matches && b in matches && a != b ensures |matches| > 1 {
      Basics.SubsetSize({a, b}, matches);
    }
  }

  lemma NoneMatch(candidates: map<OrderId, View>, f: Facts, claimed: set<OrderId>)
    ensures |MatchIds(candidates, f, claimed)| == 0 <==>
              forall id :: (id in candidates && candidates[id].byApi && candidates[id].market &&
                            candidates[id].ticker == Some(f.ticker) && candidates[id].signed == Some(f.signed)) ==> id in claimed
  {
    var matches := MatchIds(candidates, f, claimed);
    if matches == {} {
      forall id | id in candidates && Matches(candidates[id], f) ensures id in claimed { assert id !in matches; }
      assert forall id :: (id in candidates && candidates[id].byApi && candidates[id].market &&
                            candidates[id].ticker == Some(f.ticker) && candidates[id].signed == Some(f.signed)) ==> Matches(candidates[id], f);
    } else {
      var id :| id in matches;
      Basics.SubsetSize({id}, matches);
    }
  }

  /** A single match is reported with the id and the status the search saw. */
  lemma FoundMeans(candidates: map<OrderId, View>, f: Facts, claimed: set<OrderId>, complete: bool, settle: int, now: int)
    requires Decide(candidates, f, claimed, complete, settle, now).OrderFound?
    ensures var r := Decide(candidates, f, claimed, complete, settle, now);
            && r.order in candidates && r.order !in claimed
            && candidates[r.order].byApi && candidates[r.order].market
            && candidates[r.order].ticker == Some(f.ticker) && candidates[r.order].signed == Some(f.signed)
            && r.status == candidates[r.order].status
            && forall id :: id in MatchIds(candidates, f, claimed) ==> id == r.order
  {
    var matches := MatchIds(candidates, f, claimed);
    var r := Decide(candidates, f, claimed, complete, settle, now);
    assert r.order in matches;
    forall id | id in matches ensures id == r.order {
      if id != r.order { Basics.SubsetSize({id, r.order}, matches); }
    }
  }

  lemma MultipleMeans(candidates: map<OrderId, View>, f: Facts, claimed: set<OrderId>, complete: bool, settle: int, now: int)
      returns (a: OrderId, b: OrderId)
    requires Decide(candidates, f, claimed, complete, settle, now).MultipleCandidates?
    ensures a != b && a in MatchIds(candidates, f, claimed) && b in MatchIds(candidates, f, claimed)
  {
    var matches := MatchIds(candidates, f, claimed);
    a :| a in matches;
    if matches == {a} { assert false; }
    b :| b in matches && b != a;
  }

  // ---------------------------------------------------------------- what the reads say about the broker

  /** The pending list is read whole: exactly the readable working orders. */
  ghost predicate PendingAnswer(orders: seq<Order>, list: seq<View>) {
    && (forall v :: v in list ==> v.id < |orders| && orders[v.id].readable && orders[v.id].pending && v == ViewOf(v.id, orders[v.id]))
    && (forall id :: 0 <= id < |orders| && orders[id].readable && orders[id].pending ==> ViewOf(id, orders[id]) in list)
  }

  /** A readable order of the listing that is no longer working. */
  predicate Finished(o: Order, ticker: string) {
    o.readable && !o.pending && o.ticker == ticker
  }

  /** The history page holds only finished readable orders of the listing. */
  ghost predicate HistoryAnswer(orders: seq<Order>, list: seq<View>, ticker: string) {
    forall v :: v in list ==>
      v.id < |orders| && Finished(orders[v.id], ticker) && v == ViewOf(v.id, orders[v.id])
  }

  /** The one page reaches back past `since`. */
  ghost predicate PageReaches(orders: seq<Order>, list: seq<View>, ticker: string, since: int) {
    forall id :: 0 <= id < |orders| && Finished(orders[id], ticker) && since <= orders[id].createdAt ==>
      ViewOf(id, orders[id]) in list
  }

  /** How one order may change: what it was created as never changes, what became readable stays
      readable, and what left the pending list does not come back. */
  ghost predicate OrderEvolves(o: Order, p: Order) {
    && p.owner == o.owner && p.ticker == o.ticker && p.signed == o.signed && p.market == o.market
    && p.byApi == o.byApi && p.createdAt == o.createdAt
    && (o.readable ==> p.readable) && (p.pending ==> o.pending)
  }

  ghost predicate OrdersEvolve(before: seq<Order>, after: seq<Order>) {
    |before| <= |after| && forall id :: 0 <= id < |before| ==> OrderEvolves(before[id], after[id])
  }

  /** Because the pending list is read before the history, a search whose two reads both answered
      holds every order that was readable when it began, wherever the order moved in between. */
  lemma CompleteSearchMissesNothing(first: seq<Order>, second: seq<Order>, pending: seq<View>, history: seq<View>,
                                    ticker: string, since: int, until: int, id: OrderId)
    requires OrdersEvolve(first, second)
    requires PendingAnswer(first, pending) && HistoryAnswer(second, history, ticker)
    requires PageReaches(second, history, ticker, since)
    requires id < |first| && first[id].readable && first[id].ticker == ticker && since <= first[id].createdAt <= until
    ensures var found := Candidates(AllFound(PendingFound(Answered(pending)), Answered(history)), ticker, since, until);
            id in found && found[id].signed == Some(first[id].signed) && found[id].byApi == first[id].byApi
              && found[id].market == first[id].market
  {
    IndexedMeans(pending);
    MergedMeans(Indexed(pending), history);
    if first[id].pending {
      assert ViewOf(id, first[id]) in pending;
    } else {
      assert OrderEvolves(first[id], second[id]);
      assert ViewOf(id, second[id]) in history;
    }
  }

  /** An order that is in both lists is one candidate, seen as the pending list saw it: no
      candidate appears under two ids, and none disagrees with the read that found it first. */
  lemma OneCandidatePerOrder(pending: seq<View>, history: seq<View>, id: OrderId)
    requires id in Indexed(pending)
    ensures var found := AllFound(PendingFound(Answered(pending)), Answered(history));
            && id in found && found[id] in pending && found[id].id == id
            && forall other :: other in found && found[other].id == id ==> other == id
  {
    IndexedMeans(pending);
    MergedMeans(Indexed(pending), history);
  }

  // ---------------------------------------------------------------- one page of fifty is enough

  /** A newest-first page of at most fifty: whatever it omits is no newer than anything it lists. */
  ghost predicate NewestFifty(orders: seq<Order>, listed: set<OrderId>, ticker: string) {
    && (forall id :: id in listed ==> id < |orders| && Finished(orders[id], ticker))
    && (|listed| < 50 ==> forall id :: 0 <= id < |orders| && Finished(orders[id], ticker) ==> id in listed)
    && (forall id, out ::
          id in listed && 0 <= out < |orders| && out !in listed && Finished(orders[out], ticker) ==>
            orders[out].createdAt <= orders[id].createdAt)
  }

  ghost function FinishedSince(orders: seq<Order>, ticker: string, since: int): set<OrderId> {
    set id: nat | 0 <= id < |orders| && Finished(orders[id], ticker) && since <= orders[id].createdAt
  }

  /** One newest-first page of fifty is deep enough: it reaches back past `since` when no more than fifty
      finished orders of the listing are newer. */
  lemma FiftyReach(orders: seq<Order>, list: seq<View>, ticker: string, since: int)
    requires HistoryAnswer(orders, list, ticker) && NewestFifty(orders, set v | v in list :: v.id, ticker)
    requires |FinishedSince(orders, ticker, since)| <= 50
    ensures PageReaches(orders, list, ticker, since)
  {
    var listed := set v | v in list :: v.id;
    var wanted := FinishedSince(orders, ticker, since);
    if out :| out in wanted && out !in listed {
      forall id | id in listed ensures id in wanted {
        assert orders[out].createdAt <= orders[id].createdAt;
      }
      Basics.SubsetSize(listed + {out}, wanted);
    }
    forall id | 0 <= id < |orders| && Finished(orders[id], ticker) && since <= orders[id].createdAt
      ensures ViewOf(id, orders[id]) in list
    {
      assert id in wanted;
      var v :| v in list && v.id == id;
    }
  }
}
