/**
  The Daikin poller: for each air-conditioning unit it fetches the sensor
  report, splits it at commas and forwards the house and outer temperatures
  to the unit's KNX group addresses. A unit without a response body is
  skipped; any exception ends the whole cycle and is swallowed.
 */
module DaikinService {
  import opened Model
  import Text

  const HouseTempKey: string := "htemp="
  const OuterTempKey: string := "otemp="

  /** A unit: its IP address and the group addresses its temperatures are written to. */
  datatype Daikin = Daikin(ip: string, gaHouseTemp: string, gaOuterTemp: string)

  /** The sensor-report URL of a unit. */
  function Url(ip: string): string {
    "http://" + ip + "/aircon/get_sensor_info"
  }

  /** How one HTTP request ends: a body, a response without a body, or an exception. */
  datatype Fetch = Body(text: string) | NoBody | Throws

  /**
    One temperature write: the target address and the report text after the
    key. Converting the text to a `Double` and encoding it as DPT 9.001 is
    left to the `accepts` parameter, which says whether both succeed.
   */
  datatype SensorWrite = SensorWrite(address: string, text: string)

  /** The writes made so far, and whether an exception ended the cycle. */
  datatype Outcome = Outcome(writes: seq<SensorWrite>, aborted: bool)

  /** Earlier writes followed by an outcome. */
  function Then(prefix: seq<SensorWrite>, o: Outcome): Outcome {
    Outcome(prefix + o.writes, o.aborted)
  }

  /** No report part starts with both keys. */
  lemma {:induction false} KeysExclusive(part: string)
    ensures !(Text.StartsWith(part, HouseTempKey) && Text.StartsWith(part, OuterTempKey))
  {
    if Text.StartsWith(part, HouseTempKey) {
      assert part[..|HouseTempKey|][0] == 'h';
      assert part[..|OuterTempKey|][0] != 'o';
    }
  }

  /** The write a report part asks for, if it carries one of the two keys. */
  function PartWrite(d: Daikin, part: string): (r: Option<SensorWrite>)
    ensures r.Some? <==> Text.StartsWith(part, HouseTempKey) || Text.StartsWith(part, OuterTempKey)
    ensures Text.StartsWith(part, HouseTempKey) ==> r == Some(SensorWrite(d.gaHouseTemp, part[|HouseTempKey|..]))
    ensures Text.StartsWith(part, OuterTempKey) ==> r == Some(SensorWrite(d.gaOuterTemp, part[|OuterTempKey|..]))
  {
    KeysExclusive(part);
    if Text.StartsWith(part, HouseTempKey) then Some(SensorWrite(d.gaHouseTemp, part[|HouseTempKey|..]))
    else if Text.StartsWith(part, OuterTempKey) then Some(SensorWrite(d.gaOuterTemp, part[|OuterTempKey|..]))
    else None
  }

  /** A part whose temperature text cannot be converted: it throws. */
  predicate Rejected(d: Daikin, part: string, accepts: string -> bool) {
    PartWrite(d, part).Some? && !accepts(PartWrite(d, part).value.text)
  }

  /** The parts of one report in order, until one of them throws. */
  function PartsOutcome(d: Daikin, parts: seq<string>, accepts: string -> bool): Outcome {
    if parts == [] then Outcome([], false)
    else if Rejected(d, parts[0], accepts) then Outcome([], true)
    else
      var rest := PartsOutcome(d, parts[1..], accepts);
      match PartWrite(d, parts[0])
      case None => rest
      case Some(w) => Then([w], rest)
  }

  /**
    The parts of a report are handled in order: when the first parts do not
    throw, the writes of a longer report start with theirs.
   */
  lemma {:induction false} PartsOutcomeAppend(d: Daikin, a: seq<string>, b: seq<string>, accepts: string -> bool)
    requires !PartsOutcome(d, a, accepts).aborted
    ensures PartsOutcome(d, a + b, accepts) == Then(PartsOutcome(d, a, accepts).writes, PartsOutcome(d, b, accepts))
  {
    if a == [] {
      assert a + b == b;
    } else {
      assert (a + b)[1..] == a[1..] + b;
      PartsOutcomeAppend(d, a[1..], b, accepts);
    }
  }

  /**
    A report is aborted exactly when one of its parts is rejected, and then
    only the parts before the first rejected one have been written.
   */
  lemma {:induction false} PartsOutcomeAborts(d: Daikin, parts: seq<string>, accepts: string -> bool)
    ensures PartsOutcome(d, parts, accepts).aborted <==>
      exists k :: 0 <= k < |parts| && Rejected(d, parts[k], accepts)
    ensures forall k ::
      (0 <= k < |parts| && Rejected(d, parts[k], accepts) && (forall j :: 0 <= j < k ==> !Rejected(d, parts[j], accepts))) ==>
        PartsOutcome(d, parts, accepts) == Outcome(PartsOutcome(d, parts[..k], accepts).writes, true)
  {
    if parts != [] {
      PartsOutcomeAborts(d, parts[1..], accepts);
      if exists k :: 0 <= k < |parts| && Rejected(d, parts[k], accepts) {
        var k :| 0 <= k < |parts| && Rejected(d, parts[k], accepts);
        if k > 0 && !Rejected(d, parts[0], accepts) {
          assert parts[1..][k - 1] == parts[k];
        }
      }
      forall k | 0 <= k < |parts| && Rejected(d, parts[k], accepts) &&
        (forall j :: 0 <= j < k ==> !Rejected(d, parts[j], accepts))
        ensures PartsOutcome(d, parts, accepts) == Outcome(PartsOutcome(d, parts[..k], accepts).writes, true)
      {
        if k > 0 {
          assert parts[..k][1..] == parts[1..][..k - 1];
          forall j | 0 <= j < k - 1 ensures !Rejected(d, parts[1..][j], accepts) {
            assert parts[1..][j] == parts[j + 1];
          }
        }
      }
    }
  }

  /**
    Without a rejected part, the report yields one write per keyed part, in
    part order, each carrying the text after its key; other parts yield none.
   */
  lemma {:induction false} PartsOutcomeWrites(d: Daikin, parts: seq<string>, accepts: string -> bool)
    requires forall k :: 0 <= k < |parts| ==> !Rejected(d, parts[k], accepts)
    ensures var o := PartsOutcome(d, parts, accepts);
      !o.aborted &&
      forall w :: w in o.writes <==> exists k :: 0 <= k < |parts| && PartWrite(d, parts[k]) == Some(w)
  {
    if parts != [] {
      PartsOutcomeWrites(d, parts[1..], accepts);
      assert !Rejected(d, parts[0], accepts);
      forall w ensures w in PartsOutcome(d, parts, accepts).writes <==>
        exists k :: 0 <= k < |parts| && PartWrite(d, parts[k]) == Some(w)
      {
        if exists k :: 0 <= k < |parts| && PartWrite(d, parts[k]) == Some(w) {
          var k :| 0 <= k < |parts| && PartWrite(d, parts[k]) == Some(w);
          if k > 0 {
            assert parts[1..][k - 1] == parts[k];
          }
        }
        if w in PartsOutcome(d, parts[1..], accepts).writes {
          var k :| 0 <= k < |parts[1..]| && PartWrite(d, parts[1..][k]) == Some(w);
          assert parts[k + 1] == parts[1..][k];
        }
      }
    }
  }

  /** What one unit contributes: nothing without a body, an abort on an exception, else its report. */
  function UnitOutcome(d: Daikin, fetch: string -> Fetch, accepts: string -> bool): Outcome {
    match fetch(Url(d.ip))
    case NoBody => Outcome([], false)
    case Throws => Outcome([], true)
    case Body(text) => PartsOutcome(d, Text.Split(text, ','), accepts)
  }

  /** The units' outcomes one after the other, up to and including the first abort. */
  function Chain(units: seq<Daikin>, unit: Daikin -> Outcome): Outcome {
    if units == [] then Outcome([], false)
    else
      var o := unit(units[0]);
      if o.aborted then o else Then(o.writes, Chain(units[1..], unit))
  }

  /**
    `updateStates`: the units in the order the repository's set yields them;
    `fetch` gives the outcome of the request for each URL.
   */
  function Cycle(units: seq<Daikin>, fetch: string -> Fetch, accepts: string -> bool): Outcome {
    Chain(units, d => UnitOutcome(d, fetch, accepts))
  }

  /** Once a unit aborts, later units are never contacted: appending units changes nothing. */
  lemma {:induction false} AbortSkipsLaterUnits(a: seq<Daikin>, b: seq<Daikin>, fetch: string -> Fetch, accepts: string -> bool)
    requires Cycle(a, fetch, accepts).aborted
    ensures Cycle(a + b, fetch, accepts) == Cycle(a, fetch, accepts)
  {
    ChainAbortSkips(a, b, d => UnitOutcome(d, fetch, accepts));
  }

  lemma {:induction false} ChainAbortSkips(a: seq<Daikin>, b: seq<Daikin>, unit: Daikin -> Outcome)
    requires Chain(a, unit).aborted
    ensures Chain(a + b, unit) == Chain(a, unit)
  {
    assert a != [];
    assert (a + b)[0] == a[0];
    if !unit(a[0]).aborted {
      assert (a + b)[1..] == a[1..] + b;
      ChainAbortSkips(a[1..], b, unit);
    }
  }

  /** Without an abort, the units' writes follow each other in unit order. */
  lemma {:induction false} CycleAppend(a: seq<Daikin>, b: seq<Daikin>, fetch: string -> Fetch, accepts: string -> bool)
    requires !Cycle(a, fetch, accepts).aborted
    ensures Cycle(a + b, fetch, accepts) == Then(Cycle(a, fetch, accepts).writes, Cycle(b, fetch, accepts))
  {
    ChainAppend(a, b, d => UnitOutcome(d, fetch, accepts));
  }

  lemma {:induction false} ChainAppend(a: seq<Daikin>, b: seq<Daikin>, unit: Daikin -> Outcome)
    requires !Chain(a, unit).aborted
    ensures Chain(a + b, unit) == Then(Chain(a, unit).writes, Chain(b, unit))
  {
    if a == [] {
      assert a + b == b;
    } else {
      assert (a + b)[0] == a[0] && (a + b)[1..] == a[1..] + b;
      ChainAppend(a[1..], b, unit);
      var o, w, rb := unit(a[0]), Chain(a[1..], unit).writes, Chain(b, unit);
      assert o.writes + (w + rb.writes) == (o.writes + w) + rb.writes;
    }
  }

  /** A unit whose response has no body contributes nothing and the cycle goes on with the next. */
  lemma {:induction false} NoBodySkipsUnit(d: Daikin, rest: seq<Daikin>, fetch: string -> Fetch, accepts: string -> bool)
    requires fetch(Url(d.ip)) == NoBody
    ensures Cycle([d] + rest, fetch, accepts) == Cycle(rest, fetch, accepts)
  {
    assert ([d] + rest)[1..] == rest;
  }

  /** The report of the source's example line yields the house write and then the outer write. */
  lemma {:induction false} ExampleReport(d: Daikin, accepts: string -> bool)
    requires accepts("20.0") && accepts("6.0")
    ensures PartsOutcome(d, ["ret=OK", "htemp=20.0", "hhum=-", "otemp=6.0", "err=0", "cmpfreq=0", "mompow=1"], accepts) ==
      Outcome([SensorWrite(d.gaHouseTemp, "20.0"), SensorWrite(d.gaOuterTemp, "6.0")], false)
  {
    var parts := ["ret=OK", "htemp=20.0", "hhum=-", "otemp=6.0", "err=0", "cmpfreq=0", "mompow=1"];
    assert parts[0][..6][0] == 'r' && parts[2][..6][1] == 'h' && parts[4] == "err=0";
    assert parts[5][..6][0] == 'c' && parts[6][..6][0] == 'm';
    assert parts[1][6..] == "20.0" && parts[3][6..] == "6.0";
    assert PartsOutcome(d, parts[6..], accepts) == Outcome([], false);
    assert PartsOutcome(d, parts[4..], accepts) == Outcome([], false);
    assert PartsOutcome(d, parts[3..], accepts) == Outcome([SensorWrite(d.gaOuterTemp, "6.0")], false);
    assert PartsOutcome(d, parts[1..], accepts) ==
      Outcome([SensorWrite(d.gaHouseTemp, "20.0"), SensorWrite(d.gaOuterTemp, "6.0")], false);
  }

  /**
    The inner loop of `updateStates` over the parts of one report: each part
    with a key is converted and written, and a conversion failure throws.
   */
  method ForwardReport(d: Daikin, parts: seq<string>, accepts: string -> bool)
    returns (sent: seq<SensorWrite>, aborted: bool)
    ensures Outcome(sent, aborted) == PartsOutcome(d, parts, accepts)
  {
    sent := [];
    aborted := false;
    var j := 0;
    while j < |parts|
      invariant 0 <= j <= |parts|
      invariant Then(sent, PartsOutcome(d, parts[j..], accepts)) == PartsOutcome(d, parts, accepts)
    {
      var part := parts[j];
      assert parts[j..][0] == part && parts[j..][1..] == parts[j + 1..];
      KeysExclusive(part);
      if Text.StartsWith(part, HouseTempKey) {
        var temp := part[|HouseTempKey|..];
        if !accepts(temp) {
          aborted := true;
          return;
        }
        sent := sent + [SensorWrite(d.gaHouseTemp, temp)];
      }
      if Text.StartsWith(part, OuterTempKey) {
        var temp := part[|OuterTempKey|..];
        if !accepts(temp) {
          aborted := true;
          return;
        }
        sent := sent + [SensorWrite(d.gaOuterTemp, temp)];
      }
      j := j + 1;
    }
    assert parts[j..] == [];
  }

  /**
    `updateStates`: fetches each unit's report and issues the writes its parts
    ask for; a unit without a body is skipped, and an exception (from the
    request or from converting a temperature) ends the cycle.
   */
  method UpdateStates(units: seq<Daikin>, fetch: string -> Fetch, accepts: string -> bool)
    returns (writes: seq<SensorWrite>, aborted: bool)
    ensures Outcome(writes, aborted) == Cycle(units, fetch, accepts)
  {
    writes := [];
    aborted := false;
    var i := 0;
    while i < |units|
      invariant 0 <= i <= |units|
      invariant Then(writes, Cycle(units[i..], fetch, accepts)) == Cycle(units, fetch, accepts)
    {
      var d := units[i];
      assert units[i..][0] == d && units[i..][1..] == units[i + 1..];
      var response := fetch(Url(d.ip));
      if response.NoBody? {
        assert Cycle(units[i..], fetch, accepts) == Cycle(units[i + 1..], fetch, accepts);
        i := i + 1;
        continue;
      }
      if response.Throws? {
        assert Cycle(units[i..], fetch, accepts) == Outcome([], true);
        aborted := true;
        return;
      }
      var parts := Text.Split(response.text, ',');
      var sent, failed := ForwardReport(d, parts, accepts);
      assert UnitOutcome(d, fetch, accepts) == Outcome(sent, failed);
      ghost var previous := writes;
      writes := writes + sent;
      if failed {
        assert Cycle(units[i..], fetch, accepts) == Outcome(sent, true);
        aborted := true;
        return;
      }
      assert Cycle(units[i..], fetch, accepts) == Then(sent, Cycle(units[i + 1..], fetch, accepts));
      assert previous + (sent + Cycle(units[i + 1..], fetch, accepts).writes) ==
        writes + Cycle(units[i + 1..], fetch, accepts).writes;
      i := i + 1;
    }
    assert units[i..] == [];
  }
}
