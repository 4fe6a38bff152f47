/** The instrument metadata sync: batches, upserts, and deactivation by timestamp. */
module Instruments {
  import opened Wrappers

  type Key = (string, string)          // broker, ticker

  /** One row of the instrument table. The sync writes the metadata, the flag and the timestamp; the
      quantity precision is learned elsewhere and is not among the columns a sync may update. */
  datatype Row = Row(metadata: string, active: bool, lastSeen: Option<int>, precision: Option<nat>)

  /** One instrument as the provider lists it. */
  datatype Listing = Listing(ticker: string, metadata: string)

  type Table = map<Key, Row>

  // ---------------------------------------------------------------- batches

  function Chunks<T>(items: seq<T>, size: nat): seq<seq<T>>
    requires size > 0
  {
    if |items| == 0 then []
    else if |items| <= size then [items]
    else [items[..size]] + Chunks(items[size..], size)
  }

  function Concat<T>(parts: seq<seq<T>>): seq<T> {
    if parts == [] then [] else parts[0] + Concat(parts[1..])
  }

  /** The batches put together are the list: nothing lost, repeated or reordered. */
  lemma {:induction false} ChunksConcat<T>(items: seq<T>, size: nat)
    requires size > 0
    ensures Concat(Chunks(items, size)) == items
    decreases |items|
  {
    if |items| > size {
      ChunksConcat(items[size..], size);
      assert items == items[..size] + items[size..];
    } else if |items| > 0 {
      assert Concat([items]) == items + [];
    }
  }

  /** Every batch but the last is full, and none is empty. */
  lemma {:induction false} ChunkSizes<T>(items: seq<T>, size: nat, k: nat)
    requires size > 0 && k < |Chunks(items, size)|
    ensures 1 <= |Chunks(items, size)[k]| <= size
    ensures k < |Chunks(items, size)| - 1 ==> |Chunks(items, size)[k]| == size
    decreases |items|
  {
    if |items| > size && k > 0 { ChunkSizes(items[size..], size, k - 1); }
  }

  // ---------------------------------------------------------------- one statement

  function Tickers(rows: seq<Listing>): set<string> {
    set r | r in rows :: r.ticker
  }

  predicate Repeats(rows: seq<Listing>) {
    exists i, j :: 0 <= i < j < |rows| && rows[i].ticker == rows[j].ticker
  }

  function Updated(t: Table, broker: string, r: Listing, now: int): Row {
    var key := (broker, r.ticker);
    Row(r.metadata, true, Some(now), if key in t then t[key].precision else None)
  }

  function UpsertAll(t: Table, broker: string, rows: seq<Listing>, now: int): Table {
    if rows == [] then t
    else
      var r := rows[|rows| - 1];
      UpsertAll(t, broker, rows[..|rows| - 1], now)[(broker, r.ticker) := Updated(t, broker, r, now)]
  }

  /** One multi-row upsert. The database refuses a statement that would update a row twice. */
  function Upsert(t: Table, broker: string, rows: seq<Listing>, now: int): Option<Table> {
    if Repeats(rows) then None else Some(UpsertAll(t, broker, rows, now))
  }

  /** Anything this run did not refresh is no longer offered. */
  predicate Stale(r: Row, now: int) {
    r.active && (r.lastSeen.None? || r.lastSeen.value < now)
  }

  function Deactivated(t: Table, broker: string, now: int): Table {
    map k | k in t :: if k.0 == broker && Stale(t[k], now) then t[k].(active := false) else t[k]
  }

  // ---------------------------------------------------------------- the whole sync

  predicate AnyRepeats(chunks: seq<seq<Listing>>) {
    exists i :: 0 <= i < |chunks| && Repeats(chunks[i])
  }

  /** Which rows end up active, and what every row holds, stated row by row. */
  ghost predicate Synced(before: Table, after: Table, broker: string, rows: seq<Listing>, now: int) {
    && (forall k :: k in after <==> k in before || (k.0 == broker && k.1 in Tickers(rows)))
    && (forall k :: k in before ==> after[k].precision == before[k].precision)
    && (forall k :: k in after && k !in before ==> after[k].precision == None)
    && (forall k :: k in after && k.0 == broker && k.1 in Tickers(rows) ==>
          after[k].active && after[k].lastSeen == Some(now) && Listing(k.1, after[k].metadata) in rows)
    && (forall k :: k in before && !(k.0 == broker && k.1 in Tickers(rows)) ==>
          after[k] == (if k.0 == broker && Stale(before[k], now) then before[k].(active := false) else before[k]))
  }

  class InstrumentTable {
    var rows: Table

    /** Stores a response in one transaction. An empty universe is a provider fault and changes nothing;
        a ticker listed twice in one batch makes the database refuse the statement, and the whole
        transaction is rolled back. */
    method Store(broker: string, listings: seq<Listing>, size: nat, now: int) returns (ok: bool)
      requires size > 0
      modifies this
      ensures ok <==> !AnyRepeats(Chunks(listings, size))
      ensures !ok || listings == [] ==> rows == old(rows)
      ensures ok && listings != [] ==> Synced(old(rows), rows, broker, listings, now)
    {
      if listings == [] { return true; }
      var before := rows;
      var chunks := Chunks(listings, size);
      ChunksConcat(listings, size);
      ghost var done: seq<Listing> := [];
      for i := 0 to |chunks|
        invariant forall k :: 0 <= k < i ==> !Repeats(chunks[k])
        invariant done + Concat(chunks[i..]) == listings
        invariant Written(before, rows, broker, done, now)
      {
        assert Concat(chunks[i..]) == chunks[i] + Concat(chunks[i + 1..]) by { assert chunks[i..][1..] == chunks[i + 1..]; }
        var r := Upsert(rows, broker, chunks[i], now);
        if r.None? {
          rows := before;
          return false;
        }
        UpsertWrites(before, rows, broker, done, chunks[i], now);
        rows := r.value;
        assert done + Concat(chunks[i..]) == (done + chunks[i]) + Concat(chunks[i + 1..]);
        done := done + chunks[i];
      }
      assert done == listings by { assert chunks[|chunks|..] == []; }
      DeactivationSyncs(before, rows, broker, listings, now);
      rows := Deactivated(rows, broker, now);
      ok := true;
    }
  }

  /** What the batches written so far have done. */
  ghost predicate Written(before: Table, after: Table, broker: string, rows: seq<Listing>, now: int) {
    && (forall k :: k in after <==> k in before || (k.0 == broker && k.1 in Tickers(rows)))
    && (forall k :: k in before ==> after[k].precision == before[k].precision)
    && (forall k :: k in after && k !in before ==> after[k].precision == None)
    && (forall k :: k in after && k.0 == broker && k.1 in Tickers(rows) ==>
          after[k].active && after[k].lastSeen == Some(now) && Listing(k.1, after[k].metadata) in rows)
    && (forall k :: k in before && !(k.0 == broker && k.1 in Tickers(rows)) ==> after[k] == before[k])
  }

  lemma {:induction false} UpsertRows(t: Table, broker: string, rows: seq<Listing>, now: int, k: Key)
    ensures var after := UpsertAll(t, broker, rows, now);
            if k.0 == broker && k.1 in Tickers(rows)
            then k in after && after[k].active && after[k].lastSeen == Some(now) && Listing(k.1, after[k].metadata) in rows
                 && after[k].precision == (if k in t then t[k].precision else None)
            else (k in after <==> k in t) && (k in after ==> after[k] == t[k])
  {
    if rows != [] {
      var init, r := rows[..|rows| - 1], rows[|rows| - 1];
      UpsertRows(t, broker, init, now, k);
      assert rows == init + [r];
      assert Tickers(rows) == Tickers(init) + {r.ticker};
    }
  }

  lemma UpsertWrites(before: Table, t: Table, broker: string, done: seq<Listing>, rows: seq<Listing>, now: int)
    requires Written(before, t, broker, done, now)
    ensures Written(before, UpsertAll(t, broker, rows, now), broker, done + rows, now)
  {
    var after := UpsertAll(t, broker, rows, now);
    forall k: Key
      ensures k.1 in Tickers(done + rows) <==> k.1 in Tickers(done) || k.1 in Tickers(rows)
      ensures if k.0 == broker && k.1 in Tickers(rows)
              then k in after && after[k].active && after[k].lastSeen == Some(now) && Listing(k.1, after[k].metadata) in rows
                   && after[k].precision == (if k in t then t[k].precision else None)
              else (k in after <==> k in t) && (k in after ==> after[k] == t[k])
    {
      UpsertRows(t, broker, rows, now, k);
      assert Tickers(done + rows) == Tickers(done) + Tickers(rows);
    }
  }

  lemma DeactivationSyncs(before: Table, t: Table, broker: string, rows: seq<Listing>, now: int)
    requires Written(before, t, broker, rows, now)
    ensures Synced(before, Deactivated(t, broker, now), broker, rows, now)
  {
  }

  // ---------------------------------------------------------------- what a sync means

  /** No row of the broker was stamped at or after this run. */
  ghost predicate Alone(t: Table, broker: string, now: int) {
    forall k :: k in t && k.0 == broker && t[k].lastSeen.Some? ==> t[k].lastSeen.value < now
  }

  /** A sync that runs on its own leaves active exactly the tickers the provider returned; in general it
      also leaves active what a sync with the same or a later stamp wrote. */
  lemma ActiveExactly(before: Table, after: Table, broker: string, rows: seq<Listing>, now: int, ticker: string)
    requires Synced(before, after, broker, rows, now) && (broker, ticker) in after
    ensures after[(broker, ticker)].active <==>
              || ticker in Tickers(rows)
              || ((broker, ticker) in before && before[(broker, ticker)].active
                  && before[(broker, ticker)].lastSeen.Some? && before[(broker, ticker)].lastSeen.value >= now)
    ensures Alone(before, broker, now) ==> (after[(broker, ticker)].active <==> ticker in Tickers(rows))
  {
    var k := (broker, ticker);
    assert k in before || k.1 in Tickers(rows);
  }

  datatype Run = Run(broker: string, listings: seq<Listing>, now: int)

  /** Any number of completed syncs one after another. */
  ghost predicate History(tables: seq<Table>, runs: seq<Run>) {
    && |tables| == |runs| + 1
    && forall i :: 0 <= i < |runs| ==>
         if runs[i].listings == [] then tables[i + 1] == tables[i]
         else Synced(tables[i], tables[i + 1], runs[i].broker, runs[i].listings, runs[i].now)
  }

  /** No sync ever removes a row or touches its learned precision. */
  lemma {:induction false} RowsAndPrecisionLast(tables: seq<Table>, runs: seq<Run>, i: nat, j: nat, k: Key)
    requires History(tables, runs) && i <= j < |tables| && k in tables[i]
    ensures k in tables[j] && tables[j][k].precision == tables[i][k].precision
    decreases j
  {
    if i < j {
      RowsAndPrecisionLast(tables, runs, i, j - 1, k);
      var r := runs[j - 1];
      assert if r.listings == [] then tables[j - 1 + 1] == tables[j - 1]
             else Synced(tables[j - 1], tables[j - 1 + 1], r.broker, r.listings, r.now);
    }
  }
}
