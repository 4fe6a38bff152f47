/** The account sync: the mirrored positions and the per-position price peaks, updated report by report,
    and what a peak row says about the whole history of reports. */
module AccountPeaks {
  import opened Wrappers

  datatype Report = Report(ticker: string, quantity: real, price: Option<real>)

  datatype Peak = Peak(price: real, at: int, observations: nat)

  type Key = (string, string)          // account, ticker

  /** One completed sync: the instant stamped before either read, and what the broker reported. */
  datatype Sync = Sync(account: string, at: int, reports: seq<Report>)

  datatype Mirror = Mirror(positions: map<Key, Report>, peaks: map<Key, Peak>)

  // ---------------------------------------------------------------- the sync as a function

  /** The upsert of one priced report: the stored price only ever rises, and the instant moves only
      with a strictly higher price. */
  function Raised(peaks: map<Key, Peak>, key: Key, price: real, at: int): map<Key, Peak> {
    if key !in peaks then peaks[key := Peak(price, at, 1)]
    else
      var p := peaks[key];
      peaks[key := Peak(if p.price < price then price else p.price,
                        if p.price < price then at else p.at,
                        p.observations + 1)]
  }

  function Reported(m: Mirror, account: string, at: int, reports: seq<Report>): Mirror {
    if reports == [] then m
    else
      var before := Reported(m, account, at, reports[..|reports| - 1]);
      var r := reports[|reports| - 1];
      var key := (account, r.ticker);
      Mirror(before.positions[key := r],
             if r.price.Some? then Raised(before.peaks, key, r.price.value, at) else before.peaks)
  }

  function Tickers(reports: seq<Report>): set<string> {
    set r | r in reports :: r.ticker
  }

  /** The rows a sync leaves: everything of other accounts, and of its own what it saw. */
  function Kept<T>(rows: map<Key, T>, account: string, seen: set<string>): map<Key, T> {
    map k | k in rows && (k.0 != account || k.1 in seen) :: rows[k]
  }

  function AfterSync(m: Mirror, s: Sync): Mirror {
    var updated := Reported(m, s.account, s.at, s.reports);
    Mirror(Kept(updated.positions, s.account, Tickers(s.reports)), Kept(updated.peaks, s.account, Tickers(s.reports)))
  }

  function AfterAll(syncs: seq<Sync>): Mirror {
    if syncs == [] then Mirror(map[], map[]) else AfterSync(AfterAll(syncs[..|syncs| - 1]), syncs[|syncs| - 1])
  }

  class AccountTables {
    var positions: map<Key, Report>
    var peaks: map<Key, Peak>

    ghost function Contents(): Mirror
      reads this
    {
      Mirror(positions, peaks)
    }

    /** Stores one sync in one transaction. */
    method Store(account: string, at: int, reports: seq<Report>)
      modifies this
      ensures Contents() == AfterSync(old(Contents()), Sync(account, at, reports))
    {
      var seen: set<string> := {};
      for i := 0 to |reports|
        invariant Contents() == Reported(old(Contents()), account, at, reports[..i])
        invariant seen == Tickers(reports[..i])
      {
        var r := reports[i];
        assert reports[..i + 1][..i] == reports[..i];
        var key := (account, r.ticker);
        seen := seen + {r.ticker};
        positions := positions[key := r];
        if r.price.Some? {
          if key !in peaks {
            peaks := peaks[key := Peak(r.price.value, at, 1)];
          } else {
            var row := peaks[key];
            if row.price < r.price.value { row := row.(price := r.price.value, at := at); }
            row := row.(observations := row.observations + 1);
            peaks := peaks[key := row];
          }
        }
      }
      assert reports[..|reports|] == reports;
      positions := Kept(positions, account, seen);
      peaks := Kept(peaks, account, seen);
    }
  }

  // ---------------------------------------------------------------- the history a peak stands for

  datatype Priced = Priced(price: real, at: int)

  function PricesOf(reports: seq<Report>, ticker: string, at: int): seq<Priced> {
    if reports == [] then []
    else
      var r := reports[|reports| - 1];
      PricesOf(reports[..|reports| - 1], ticker, at) +
      (if r.ticker == ticker && r.price.Some? then [Priced(r.price.value, at)] else [])
  }

  /** Every priced report of the position since the last sync of its account that did not report it. */
  function History(syncs: seq<Sync>, account: string, ticker: string): seq<Priced> {
    if syncs == [] then []
    else
      var s := syncs[|syncs| - 1];
      var before := History(syncs[..|syncs| - 1], account, ticker);
      if s.account != account then before
      else if ticker !in Tickers(s.reports) then []
      else before + PricesOf(s.reports, ticker, s.at)
  }

  /** The row says exactly this of a history: the highest price, the instant of the first report that
      reached it, and how many priced reports there were. */
  ghost predicate Summarises(p: Peak, h: seq<Priced>) {
    && p.observations == |h|
    && (forall i :: 0 <= i < |h| ==> h[i].price <= p.price)
    && exists k :: 0 <= k < |h| && h[k] == Priced(p.price, p.at) && forall j :: 0 <= j < k ==> h[j].price < p.price
  }

  /** A row is there exactly when the history is not empty, and then summarises it. */
  ghost predicate RowMatches(peaks: map<Key, Peak>, key: Key, h: seq<Priced>) {
    && (key in peaks <==> h != [])
    && (key in peaks ==> Summarises(peaks[key], h))
  }

  lemma RaisedMatches(peaks: map<Key, Peak>, key: Key, price: real, at: int, h: seq<Priced>)
    requires RowMatches(peaks, key, h)
    ensures RowMatches(Raised(peaks, key, price, at), key, h + [Priced(price, at)])
  {
    var h' := h + [Priced(price, at)];
    var p := Raised(peaks, key, price, at)[key];
    if key in peaks && price <= peaks[key].price {
      var k :| 0 <= k < |h| && h[k] == Priced(peaks[key].price, peaks[key].at) && forall j :: 0 <= j < k ==> h[j].price < peaks[key].price;
      assert h'[k] == Priced(p.price, p.at);
    } else {
      assert h'[|h|] == Priced(p.price, p.at);
    }
  }

  /** A report of another position leaves the row alone. */
  lemma OtherRow(peaks: map<Key, Peak>, account: string, at: int, r: Report, key: Key)
    requires r.price.None? || (account, r.ticker) != key
    ensures var after := if r.price.Some? then Raised(peaks, (account, r.ticker), r.price.value, at) else peaks;
            (key in after <==> key in peaks) && (key in after ==> after[key] == peaks[key])
  {
  }

  lemma {:induction false} ReportedMatches(m: Mirror, account: string, at: int, reports: seq<Report>, key: Key, h: seq<Priced>)
    requires RowMatches(m.peaks, key, h)
    ensures RowMatches(Reported(m, account, at, reports).peaks, key,
                       if key.0 == account then h + PricesOf(reports, key.1, at) else h)
  {
    if reports == [] {
      assert h + [] == h;
    } else {
      var r := reports[|reports| - 1];
      ReportedMatches(m, account, at, reports[..|reports| - 1], key, h);
      var before := Reported(m, account, at, reports[..|reports| - 1]).peaks;
      var h1 := h + PricesOf(reports[..|reports| - 1], key.1, at);
      if r.price.Some? && (account, r.ticker) == key {
        hide RowMatches, Raised;
        RaisedMatches(before, key, r.price.value, at, h1);
        assert h1 + [Priced(r.price.value, at)] == h + PricesOf(reports, key.1, at);
      } else {
        hide Summarises;
        OtherRow(before, account, at, r, key);
        assert key.0 == account ==> h1 == h + PricesOf(reports, key.1, at);
      }
    }
  }

  /** After any sequence of syncs, in any interleaving of accounts, each peak row summarises exactly the
      priced reports of its position since it was last absent. */
  lemma {:induction false} PeakSummarisesHistory(syncs: seq<Sync>, account: string, ticker: string)
    ensures RowMatches(AfterAll(syncs).peaks, (account, ticker), History(syncs, account, ticker))
  {
    if syncs != [] {
      var s := syncs[|syncs| - 1];
      var init := syncs[..|syncs| - 1];
      PeakSummarisesHistory(init, account, ticker);
      ReportedMatches(AfterAll(init), s.account, s.at, s.reports, (account, ticker), History(init, account, ticker));
    }
  }

  // ---------------------------------------------------------------- the mirrored positions

  /** The last report of its position in the list. */
  ghost predicate LastOf(reports: seq<Report>, r: Report) {
    exists i :: 0 <= i < |reports| && reports[i] == r && forall j :: i < j < |reports| ==> reports[j].ticker != r.ticker
  }

  lemma LastOfExtends(init: seq<Report>, r: Report, last: Report)
    requires LastOf(init, r) && last.ticker != r.ticker
    ensures LastOf(init + [last], r)
  {
    var i :| 0 <= i < |init| && init[i] == r && forall j :: i < j < |init| ==> init[j].ticker != r.ticker;
    assert (init + [last])[i] == r;
  }

  lemma {:induction false} ReportedPositions(m: Mirror, account: string, at: int, reports: seq<Report>, key: Key)
    ensures var after := Reported(m, account, at, reports).positions;
            if key.0 == account && key.1 in Tickers(reports)
            then key in after && after[key].ticker == key.1 && LastOf(reports, after[key])
            else (key in after <==> key in m.positions) && (key in after ==> after[key] == m.positions[key])
  {
    if reports != [] {
      var init := reports[..|reports| - 1];
      var r := reports[|reports| - 1];
      ReportedPositions(m, account, at, init, key);
      assert reports == init + [r];
      assert Tickers(reports) == Tickers(init) + {r.ticker};
      var before := Reported(m, account, at, init).positions;
      if key.0 == account && key.1 in Tickers(init) && key.1 != r.ticker {
        LastOfExtends(init, before[key], r);
      }
      assert reports[|reports| - 1] == r && LastOf(reports, r);
    }
  }

  /** A sync leaves exactly the positions it reported for its account, each as last reported, and does not
      touch another account's rows. */
  lemma PositionsMirrorTheReport(m: Mirror, s: Sync, key: Key)
    ensures var after := AfterSync(m, s);
            && (key.0 == s.account ==> (key in after.positions <==> key.1 in Tickers(s.reports)))
            && (key.0 == s.account && key in after.positions ==> LastOf(s.reports, after.positions[key]) && after.positions[key].ticker == key.1)
            && (key.0 != s.account ==>
                  && (key in after.positions <==> key in m.positions) && (key in after.peaks <==> key in m.peaks)
                  && (key in after.positions ==> after.positions[key] == m.positions[key])
                  && (key in after.peaks ==> after.peaks[key] == m.peaks[key]))
  {
    ReportedPositions(m, s.account, s.at, s.reports, key);
    if key.0 != s.account { ReportedElsewhere(m, s.account, s.at, s.reports, key); }
  }

  lemma {:induction false} ReportedElsewhere(m: Mirror, account: string, at: int, reports: seq<Report>, key: Key)
    requires key.0 != account
    ensures var after := Reported(m, account, at, reports).peaks;
            (key in after <==> key in m.peaks) && (key in after ==> after[key] == m.peaks[key])
  {
    if reports != [] { ReportedElsewhere(m, account, at, reports[..|reports| - 1], key); }
  }

  /** A peak row never outlives its position. */
  lemma {:induction false} PeaksHavePositions(syncs: seq<Sync>, key: Key)
    ensures key in AfterAll(syncs).peaks ==> key in AfterAll(syncs).positions
  {
    if syncs != [] {
      var s := syncs[|syncs| - 1];
      var m := AfterAll(syncs[..|syncs| - 1]);
      PeaksHavePositions(syncs[..|syncs| - 1], key);
      PositionsMirrorTheReport(m, s, key);
    }
  }
}
