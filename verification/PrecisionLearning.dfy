/** Learning an instrument's quantity precision from the broker's refusals: reading the number out of the
    broker's sentence, storing it, and how often a refusal queues a re-sized proposal. */
module PrecisionLearning {
  import opened Wrappers
  import opened DecimalLiteral
  import I = Instruments

  /** The most decimal places the sizer can quantize to. */
  const MAX_PRECISION := 8

  const MISMATCH := "quantity-precision-mismatch"
  const DEMAND := "precision "

  // ---------------------------------------------------------------- reading the demand

  predicate EndsWith(s: string, suffix: string) {
    |suffix| <= |s| && s[|s| - |suffix|..] == suffix
  }

  /** The pattern matches here: the word, a space, and at least one digit. */
  predicate MatchesHere(s: string) {
    |DEMAND| < |s| && s[..|DEMAND|] == DEMAND && Digit(s[|DEMAND|])
  }

  /** All of the match's digits. */
  function NumberHere(s: string): nat
    requires MatchesHere(s)
  {
    var digits := s[|DEMAND|..];
    Value(digits[..Leading(digits)])
  }

  /** The leftmost match. */
  function Demanded(s: string): Option<nat> {
    if MatchesHere(s) then Some(NumberHere(s))
    else if s == [] then None
    else Demanded(s[1..])
  }

  /** Nothing is read exactly when the pattern matches nowhere; otherwise what is read is the number at
      the leftmost match. */
  lemma {:induction false} DemandedExactly(s: string)
    ensures Demanded(s).None? <==> forall i :: 0 <= i <= |s| ==> !MatchesHere(s[i..])
    ensures forall i :: 0 <= i <= |s| && MatchesHere(s[i..]) && (forall j :: 0 <= j < i ==> !MatchesHere(s[j..])) ==>
              Demanded(s) == Some(NumberHere(s[i..]))
  {
    assert s[0..] == s;
    if !MatchesHere(s) && s != [] {
      var t := s[1..];
      DemandedExactly(t);
      assert forall i :: 0 <= i <= |t| ==> t[i..] == s[i + 1..];
      forall i | 0 <= i <= |s| && MatchesHere(s[i..]) ensures i > 0 && MatchesHere(t[i - 1..]) {
        assert t[i - 1..] == s[i..];
      }
      forall i | 0 <= i <= |s| && MatchesHere(s[i..]) && (forall j :: 0 <= j < i ==> !MatchesHere(s[j..]))
        ensures Demanded(s) == Some(NumberHere(s[i..]))
      {
        assert t[i - 1..] == s[i..];
        forall j | 0 <= j < i - 1 ensures !MatchesHere(t[j..]) { assert t[j..] == s[j + 1..]; }
      }
    }
  }

  /** What a refusal teaches: nothing unless it is the precision refusal, names a number, and the number
      is one the sizer can use. */
  function PrecisionFrom(payloadType: Option<string>, detail: Option<string>): Option<nat> {
    if payloadType.None? || !EndsWith(payloadType.value, MISMATCH) then None
    else if detail.None? then None
    else
      var n := Demanded(detail.value);
      if n.Some? && n.value <= MAX_PRECISION then n else None
  }

  /** A sentence that says "precision n", in decimal, is read as n: whatever precedes it without
      matching itself, and whatever follows that does not go on with a digit. */
  lemma {:induction false} ReadsTheDemand(before: string, n: nat, after: string)
    requires after == [] || !Digit(after[0])
    requires forall i :: 0 <= i < |before| ==> !MatchesHere((before + DEMAND + Digits(n) + after)[i..])
    ensures Demanded(before + DEMAND + Digits(n) + after) == Some(n)
    decreases |before|
  {
    var s := before + DEMAND + Digits(n) + after;
    if before == [] {
      assert s == DEMAND + (Digits(n) + after);
      assert s[..|DEMAND|] == DEMAND && s[|DEMAND|..] == Digits(n) + after;
      assert s[|DEMAND|] == Digits(n)[0];
      LeadingOfDigits(Digits(n), after);
      assert (Digits(n) + after)[..|Digits(n)|] == Digits(n);
      DigitsRead(n);
    } else {
      assert !MatchesHere(s[0..]) && s[0..] == s;
      var rest := before[1..];
      assert s[1..] == rest + DEMAND + Digits(n) + after;
      forall i | 0 <= i < |rest| ensures !MatchesHere((rest + DEMAND + Digits(n) + after)[i..]) {
        assert s[1..][i..] == s[i + 1..];
      }
      ReadsTheDemand(rest, n, after);
    }
  }

  /** What a refusal teaches, whatever its parts: the number at the leftmost match of its sentence, when its
      type is the precision refusal's and the number is at most eight. */
  lemma TaughtExactly(payloadType: Option<string>, detail: Option<string>, n: nat)
    ensures PrecisionFrom(payloadType, detail) == Some(n) <==>
              && payloadType.Some? && |payloadType.value| >= 27
              && payloadType.value[|payloadType.value| - 27..] == "quantity-precision-mismatch"
              && detail.Some? && Demanded(detail.value) == Some(n) && n <= 8
  {
  }

  /** A precision refusal that names n teaches n, if the sizer can use it, and nothing otherwise. */
  lemma TeachesTheDemand(host: string, before: string, n: nat, after: string)
    requires after == [] || !Digit(after[0])
    requires forall i :: 0 <= i < |before| ==> !MatchesHere((before + "precision " + Digits(n) + after)[i..])
    ensures PrecisionFrom(Some(host + "quantity-precision-mismatch"), Some(before + "precision " + Digits(n) + after)) ==
              if n <= 8 then Some(n) else None
  {
    hide Demanded, Digits;
    var name := "quantity-precision-mismatch";
    assert (host + name)[|host + name| - 27..] == name;
    ReadsTheDemand(before, n, after);
  }

  // ---------------------------------------------------------------- storing it

  /** The instrument's row learns the demanded precision. */
  function Learned(t: I.Table, key: I.Key, demand: Option<nat>): I.Table {
    if demand.Some? && key in t then t[key := t[key].(precision := demand)] else t
  }

  /** The refusal changes what is stored, and so re-sizes the thesis. */
  predicate Teaches(t: I.Table, key: I.Key, demand: Option<nat>) {
    demand.Some? && key in t && t[key].precision != demand
  }

  class Learner {
    var table: I.Table
    var queued: seq<nat>              // research runs queued for a re-sized proposal

    /** The part of recording a rejection that learns. `instrument` and `run` are the proposal's, and
        either may be unset. The proposal gives up its dedupe key exactly when a number was learned. */
    method LearnFrom(instrument: Option<I.Key>, run: Option<nat>, payloadType: Option<string>, detail: Option<string>)
      returns (released: bool)
      modifies this
      ensures var demand := PrecisionFrom(payloadType, detail);
              if instrument.Some? && Teaches(old(table), instrument.value, demand)
              then released && table == Learned(old(table), instrument.value, demand)
                   && queued == old(queued) + (if run.Some? then [run.value] else [])
              else !released && table == old(table) && queued == old(queued)
    {
      released := false;
      var precision := PrecisionFrom(payloadType, detail);
      if precision.Some? && instrument.Some? {
        var key := instrument.value;
        if key in table {
          var stored := table[key].precision;
          if stored != precision {
            table := table[key := table[key].(precision := precision)];
            released := true;
            if run.Some? { queued := queued + [run.value]; }
          }
        }
      }
    }
  }

  // ---------------------------------------------------------------- whole runs

  /** What happens to an instrument table: a refusal of a proposal for `key`, or a metadata sync. */
  datatype Event =
    | Refused(key: I.Key, payloadType: Option<string>, detail: Option<string>)
    | Refreshed(run: I.Run)

  ghost predicate Follows(t: I.Table, e: Event, t': I.Table) {
    match e
    case Refused(key, payloadType, detail) => t' == Learned(t, key, PrecisionFrom(payloadType, detail))
    case Refreshed(r) => if r.listings == [] then t' == t else I.Synced(t, t', r.broker, r.listings, r.now)
  }

  ghost predicate History(tables: seq<I.Table>, events: seq<Event>) {
    && |tables| == |events| + 1
    && forall i :: 0 <= i < |events| ==> Follows(tables[i], events[i], tables[i + 1])
  }

  /** How many of the first `n` events re-size a proposal for the instrument. */
  function Regenerations(tables: seq<I.Table>, events: seq<Event>, key: I.Key, n: nat): nat
    requires n <= |events| && |tables| == |events| + 1
  {
    if n == 0 then 0
    else
      var e := events[n - 1];
      Regenerations(tables, events, key, n - 1) +
      (if e.Refused? && e.key == key && Teaches(tables[n - 1], key, PrecisionFrom(e.payloadType, e.detail)) then 1 else 0)
  }

  /** The numbers the broker demanded of the instrument, in order. */
  function Demands(events: seq<Event>, key: I.Key): seq<nat> {
    if events == [] then []
    else
      var e := events[|events| - 1];
      var before := Demands(events[..|events| - 1], key);
      if e.Refused? && e.key == key && PrecisionFrom(e.payloadType, e.detail).Some?
      then before + [PrecisionFrom(e.payloadType, e.detail).value] else before
  }

  /** How often a sequence of demands differs from the one before it, starting from what is stored. */
  function Changes(stored: Option<nat>, demands: seq<nat>): nat {
    if demands == [] then 0
    else
      var n := |demands| - 1;
      Changes(stored, demands[..n]) + (if Last(stored, demands[..n]) != Some(demands[n]) then 1 else 0)
  }

  function Last(stored: Option<nat>, demands: seq<nat>): Option<nat> {
    if demands == [] then stored else Some(demands[|demands| - 1])
  }

  /** Over any run, with metadata syncs anywhere in between, an instrument holds the last precision the
      broker demanded of it, and proposals were re-sized exactly as often as that demand changed. */
  lemma {:induction false} ResizedOncePerChange(tables: seq<I.Table>, events: seq<Event>, key: I.Key, n: nat)
    requires History(tables, events) && n <= |events| && key in tables[0]
    ensures var demands := Demands(events[..n], key);
            && key in tables[n] && tables[n][key].precision == Last(tables[0][key].precision, demands)
            && Regenerations(tables, events, key, n) == Changes(tables[0][key].precision, demands)
  {
    if n > 0 {
      ResizedOncePerChange(tables, events, key, n - 1);
      assert Follows(tables[n - 1], events[n - 1], tables[n - 1 + 1]);
      assert events[..n][..n - 1] == events[..n - 1];
      var d, before := Demands(events[..n], key), Demands(events[..n - 1], key);
      if d != before { assert d[..|d| - 1] == before; }
    }
  }

  /** A constant demand re-sizes at most once, and not at all when it is what was stored. */
  lemma {:induction false} ConstantChangesOnce(stored: Option<nat>, demands: seq<nat>, d: nat)
    requires forall i :: 0 <= i < |demands| ==> demands[i] == d
    ensures Changes(stored, demands) == if demands == [] || stored == Some(d) then 0 else 1
  {
    if demands != [] { ConstantChangesOnce(stored, demands[..|demands| - 1], d); }
  }

  lemma ConstantDemandResizesOnce(tables: seq<I.Table>, events: seq<Event>, key: I.Key, d: nat)
    requires History(tables, events) && key in tables[0]
    requires forall i :: 0 <= i < |Demands(events, key)| ==> Demands(events, key)[i] == d
    ensures Regenerations(tables, events, key, |events|) <= 1
    ensures Regenerations(tables, events, key, |events|) == 1 <==> Demands(events, key) != [] && tables[0][key].precision != Some(d)
  {
    ResizedOncePerChange(tables, events, key, |events|);
    assert events[..|events|] == events;
    ConstantChangesOnce(tables[0][key].precision, Demands(events, key), d);
  }

  ghost predicate InRange(t: I.Table) {
    forall k :: k in t && t[k].precision.Some? ==> t[k].precision.value <= MAX_PRECISION
  }

  /** Whatever the broker says, every stored precision stays one the sizer can use. */
  lemma {:induction false} StoredStaysInRange(tables: seq<I.Table>, events: seq<Event>, n: nat)
    requires History(tables, events) && n < |tables| && InRange(tables[0])
    ensures InRange(tables[n])
  {
    if n > 0 {
      StoredStaysInRange(tables, events, n - 1);
      assert Follows(tables[n - 1], events[n - 1], tables[n - 1 + 1]);
    }
  }
}
