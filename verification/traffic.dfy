/** The Cloud Run traffic parsers of scripts/parse_traffic.py. */
module Traffic {
  import opened Numerals
  import opened Options
  import opened PyText

  datatype Json =
    | Null
    | Bool(b: bool)
    | Int(n: int)
    | Real(r: real)
    | Str(s: string)
    | List(items: seq<Json>)
    | Dict(entries: map<string, Json>)

  /** What the language does with values that are not plain: int() of a string, and str() of a non-string. */
  datatype Python = Python(intOf: string -> Option<int>, show: Json -> string)

  datatype Error =
    | NotADict
    | NoStatus
    | EntryNotADict
    | BadPercent
    | PercentOutOfRange
    | MissingRevision
    | BadSum
    | NothingServing

  datatype Result<+T> = Ok(value: T) | Err(error: Error)

  datatype Pair = Pair(revision: string, percent: nat)

  function Get(j: Json, key: string): Json {
    if j.Dict? && key in j.entries then j.entries[key] else Null
  }

  predicate Truthy(j: Json) {
    match j
    case Null => false
    case Bool(b) => b
    case Int(n) => n != 0
    case Real(r) => r != 0.0
    case Str(s) => s != ""
    case List(items) => items != []
    case Dict(entries) => entries != map[]
  }

  function TextOf(j: Json, py: Python): string { if j.Str? then j.s else py.show(j) }

  /** int(value), truncating toward zero; None for the errors the source catches. */
  function IntOf(j: Json, py: Python): Option<int> {
    match j
    case Bool(b) => Some(if b then 1 else 0)
    case Int(n) => Some(n)
    case Real(r) => Some(if r < 0.0 then -((-r).Floor) else r.Floor)
    case Str(s) => py.intOf(s)
    case _ => None
  }

  // ----- allocations -----

  /** One traffic entry: nothing, a share of a revision, or an error. */
  function Classify(entry: Json, py: Python): Result<Option<Pair>> {
    if !entry.Dict? then Err(EntryNotADict)
    else
      var revision, percent := Get(entry, "revisionName"), Get(entry, "percent");
      if percent == Null then Ok(None)
      else
        var n := IntOf(percent, py);
        if n.None? then Err(BadPercent)
        else if n.value < 0 || n.value > 100 then Err(PercentOutOfRange)
        else if n.value == 0 then Ok(None)
        else if !Truthy(revision) || Strip(TextOf(revision, py)) == "" then Err(MissingRevision)
        else Ok(Some(Pair(TextOf(revision, py), n.value)))
  }

  /** The shares in order, or the first entry's error. */
  function Collect(entries: seq<Json>, py: Python): Result<seq<Pair>> {
    if entries == [] then Ok([])
    else
      var before := Collect(entries[..|entries| - 1], py);
      if before.Err? then before
      else
        match Classify(entries[|entries| - 1], py)
        case Err(e) => Err(e)
        case Ok(None) => before
        case Ok(Some(pair)) => Ok(before.value + [pair])
  }

  function Total(pairs: seq<Pair>): nat {
    if pairs == [] then 0 else Total(pairs[..|pairs| - 1]) + pairs[|pairs| - 1].percent
  }

  function PrintPair(pair: Pair): string { pair.revision + "=" + Print(pair.percent, 10) }

  function PrintPairs(pairs: seq<Pair>): seq<string> {
    seq(|pairs|, i requires 0 <= i < |pairs| => PrintPair(pairs[i]))
  }

  function EntriesOf(status: Json): seq<Json> {
    if Get(status, "traffic").List? then Get(status, "traffic").items else []
  }

  function Latest(status: Json, py: Python): Option<string> {
    var latest := Get(status, "latestReadyRevisionName");
    if Truthy(latest) && Strip(TextOf(latest, py)) != "" then Some(Strip(TextOf(latest, py))) else None
  }

  function StatusOf(spec: Json): Result<Json> {
    if !spec.Dict? then Err(NotADict)
    else if !Get(spec, "status").Dict? then Err(NoStatus)
    else Ok(Get(spec, "status"))
  }

  /** The text that is printed, by the pairs and the fallback. */
  function Summary(pairs: seq<Pair>, latest: Option<string>): Result<string> {
    if pairs != [] then (if Total(pairs) != 100 then Err(BadSum) else Ok(Join(PrintPairs(pairs), ",")))
    else if latest.Some? then Ok(latest.value + "=100")
    else Err(NothingServing)
  }

  function Allocations(spec: Json, py: Python): Result<string> {
    match StatusOf(spec)
    case Err(e) => Err(e)
    case Ok(status) =>
      match Collect(EntriesOf(status), py)
      case Err(e) => Err(e)
      case Ok(pairs) => Summary(pairs, Latest(status, py))
  }

  lemma CollectOneMore(entries: seq<Json>, i: nat, share: Result<Option<Pair>>, py: Python)
    requires i < |entries| && Collect(entries[..i], py).Ok? && share == Classify(entries[i], py)
    ensures Collect(entries[..i + 1], py)
         == if share.Err? then Err(share.error)
            else if share.value.Some? then Ok(Collect(entries[..i], py).value + [share.value.value])
            else Collect(entries[..i], py)
  {
    assert entries[..i + 1][..i] == entries[..i];
  }

  lemma TotalOneMore(pairs: seq<Pair>, pair: Pair)
    ensures Total(pairs + [pair]) == Total(pairs) + pair.percent
  {
    assert (pairs + [pair])[..|pairs|] == pairs;
  }

  method CollectPairs(entries: seq<Json>, py: Python) returns (r: Result<seq<Pair>>, total: nat)
    ensures r == Collect(entries, py) && (r.Ok? ==> total == Total(r.value))
  {
    var pairs: seq<Pair> := [];
    total := 0;
    for i := 0 to |entries|
      invariant Collect(entries[..i], py) == Ok(pairs) && total == Total(pairs)
    {
      var share := Classify(entries[i], py);
      CollectOneMore(entries, i, share, py);
      if share.Err? {
        CollectStops(entries, i, share.error, py);
        return Err(share.error), 0;
      }
      if share.value.Some? {
        TotalOneMore(pairs, share.value.value);
        pairs := pairs + [share.value.value];
        total := total + share.value.value.percent;
      }
    }
    assert entries[..|entries|] == entries;
    r := Ok(pairs);
  }

  lemma {:induction false} CollectStops(entries: seq<Json>, i: nat, e: Error, py: Python)
    requires i < |entries| && Collect(entries[..i + 1], py) == Err(e)
    ensures Collect(entries, py) == Err(e)
    decreases |entries|
  {
    if i + 1 == |entries| {
      assert entries[..i + 1] == entries;
    } else {
      var before := entries[..|entries| - 1];
      assert before[..i + 1] == entries[..i + 1];
      CollectStops(before, i, e, py);
    }
  }

  method ParseTrafficAllocations(spec: Json, py: Python) returns (r: Result<string>)
    ensures r == Allocations(spec, py)
  {
    if !spec.Dict? { return Err(NotADict); }
    var status := Get(spec, "status");
    if !status.Dict? { return Err(NoStatus); }
    var pairs, total := CollectPairs(EntriesOf(status), py);
    if pairs.Err? { return Err(pairs.error); }
    if pairs.value != [] {
      if total != 100 { return Err(BadSum); }
      return Ok(Join(PrintPairs(pairs.value), ","));
    }
    var latest := Latest(status, py);
    if latest.Some? { return Ok(latest.value + "=100"); }
    return Err(NothingServing);
  }

  // ----- what an entry counts for -----

  /** The values that count as missing. */
  lemma WhatIsMissing(j: Json)
    ensures !Truthy(j) <==> j in {Null, Bool(false), Int(0), Real(0.0), Str(""), List([]), Dict(map[])}
  {
  }

  function Entry(revision: Json, percent: Json): Json {
    Dict(map["revisionName" := revision, "percent" := percent])
  }

  /** A whole number from one to a hundred is a share, zero is none, anything else is out of range; a share needs
      a revision that is not missing and not blank, and keeps its name as it stands. */
  lemma WholePercents(revision: Json, n: int, py: Python)
    ensures var share := Classify(Entry(revision, Int(n)), py);
      && (share == Err(PercentOutOfRange) <==> n < 0 || 100 < n)
      && (share == Ok(None) <==> n == 0)
      && (1 <= n <= 100 ==>
            share == if revision in {Null, Bool(false), Int(0), Real(0.0), Str(""), List([]), Dict(map[])}
                        || IsBlank(TextOf(revision, py)) then Err(MissingRevision)
                     else Ok(Some(Pair(if revision.Str? then revision.s else py.show(revision), n))))
  {
    hide Strip, Truthy, IsBlank;
    WhatIsMissing(revision);
    StripDropsOnlySpace(TextOf(revision, py));
  }

  /** Other kinds of percentage: a real number counts by its whole part, towards zero; true counts as one; a string
      as the number it reads as; a list, a dictionary or a string that reads as no number is an error. */
  lemma OtherPercents(percent: Json, py: Python)
    ensures percent.Real? ==> exists k: int :: IntOf(percent, py) == Some(k) && IsWholePart(k, percent.r)
    ensures percent.Bool? ==> IntOf(percent, py) == Some(if percent.b then 1 else 0)
    ensures percent.Str? ==> IntOf(percent, py) == py.intOf(percent.s)
    ensures IntOf(percent, py).None? <==>
        percent.Null? || percent.List? || percent.Dict? || (percent.Str? && py.intOf(percent.s).None?)
  {
    if percent.Real? {
      var k := if percent.r < 0.0 then -((-percent.r).Floor) else percent.r.Floor;
      assert IntOf(percent, py) == Some(k) && IsWholePart(k, percent.r);
    }
  }

  predicate IsWholePart(k: int, r: real) {
    if r < 0.0 then r <= k as real < r + 1.0 && k <= 0 else r - 1.0 < k as real <= r && k >= 0
  }

  /** They count as the whole number they are read as; null counts as no share. */
  lemma PercentsCountAsRead(revision: Json, percent: Json, py: Python)
    ensures var share := Classify(Entry(revision, percent), py);
      && (percent == Null ==> share == Ok(None))
      && (share == Err(BadPercent) <==> percent != Null && IntOf(percent, py).None?)
      && (IntOf(percent, py).Some? ==>
            share == Classify(Entry(revision, Int(IntOf(percent, py).value)), py))
  {
    hide Strip, Truthy;
  }

  /** Without a traffic list the latest ready revision serves everything, if it has a name. */
  lemma LatestServesAll(name: Json, py: Python)
    ensures var spec := Dict(map["status" := Dict(map["latestReadyRevisionName" := name])]);
      Allocations(spec, py)
        == if name in {Null, Bool(false), Int(0), Real(0.0), Str(""), List([]), Dict(map[])}
              || IsBlank(TextOf(name, py)) then Err(NothingServing)
           else Ok(Strip(TextOf(name, py)) + "=100")
  {
    hide Strip, Truthy, IsBlank, Classify, Join, Total;
    WhatIsMissing(name);
    StripDropsOnlySpace(TextOf(name, py));
    var status := Dict(map["latestReadyRevisionName" := name]);
    assert StatusOf(Dict(map["status" := status])) == Ok(status);
    assert EntriesOf(status) == [] && Get(status, "latestReadyRevisionName") == name;
  }

  // ----- reading the printed shares back -----

  /** A name that neither separator splits. */
  predicate IsPlain(name: string) { ',' !in name && '=' !in name }

  function ReadPair(piece: string): Option<Pair> {
    var halves := SplitOn(piece, '=');
    if |halves| == 2 && IsNumeral(halves[1], 10) then Some(Pair(halves[0], Value(halves[1], 10))) else None
  }

  function ReadPairs(pieces: seq<string>): Option<seq<Pair>> {
    if pieces == [] then Some([])
    else
      var first, rest := ReadPair(pieces[0]), ReadPairs(pieces[1..]);
      if first.Some? && rest.Some? then Some([first.value] + rest.value) else None
  }

  /** revision=percent, separated by commas. */
  function Read(text: string): Option<seq<Pair>> { ReadPairs(SplitOn(text, ',')) }

  lemma ReadOfPrinted(pair: Pair)
    requires IsPlain(pair.revision)
    ensures ',' !in PrintPair(pair) && ReadPair(PrintPair(pair)) == Some(pair)
  {
    var percent := Print(pair.percent, 10);
    assert '=' !in percent && ',' !in percent;
    SplitFirst(pair.revision, '=', percent);
    SplitOne(percent, '=');
    ValueOfPrint(pair.percent, 10);
  }

  lemma {:induction false} ReadOfAllPrinted(pairs: seq<Pair>)
    requires forall i :: 0 <= i < |pairs| ==> IsPlain(pairs[i].revision)
    ensures ReadPairs(PrintPairs(pairs)) == Some(pairs)
    ensures forall i :: 0 <= i < |pairs| ==> ',' !in PrintPairs(pairs)[i]
  {
    if pairs != [] {
      ReadOfPrinted(pairs[0]);
      ReadOfAllPrinted(pairs[1..]);
      assert PrintPairs(pairs)[1..] == PrintPairs(pairs[1..]);
      assert pairs == [pairs[0]] + pairs[1..];
    }
  }

  lemma {:induction false} ReadNamesArePlain(pieces: seq<string>)
    requires ReadPairs(pieces).Some? && forall i :: 0 <= i < |pieces| ==> ',' !in pieces[i]
    ensures forall i :: 0 <= i < |ReadPairs(pieces).value| ==> IsPlain(ReadPairs(pieces).value[i].revision)
  {
    if pieces != [] {
      HalvesOf(pieces[0], '=', ',');
      ReadNamesArePlain(pieces[1..]);
    }
  }

  lemma {:induction false} HalvesOf(s: string, separator: char, other: char)
    requires other !in s
    ensures forall i :: 0 <= i < |SplitOn(s, separator)| ==> other !in SplitOn(s, separator)[i]
  {
    if s != [] { HalvesOf(s[1..], separator, other); }
  }

  /** The printed shares read back as themselves exactly when no revision's name holds a separator. */
  lemma PrintedReadsBackIffPlain(pairs: seq<Pair>)
    requires pairs != []
    ensures Read(Join(PrintPairs(pairs), ",")) == Some(pairs) <==>
              forall i :: 0 <= i < |pairs| ==> IsPlain(pairs[i].revision)
  {
    var text := Join(PrintPairs(pairs), ",");
    if forall i :: 0 <= i < |pairs| ==> IsPlain(pairs[i].revision) {
      ReadOfAllPrinted(pairs);
      SplitOfJoin(PrintPairs(pairs), ',');
    }
    if Read(text) == Some(pairs) {
      ReadNamesArePlain(SplitOn(text, ','));
    }
  }

  // ----- the primary revision -----

  function Share(entry: Json, py: Python): int {
    var n := IntOf(Get(entry, "percent"), py);
    if n.Some? then n.value else 0
  }

  /** The entry names a revision and gives it at least that share. */
  predicate Carries(entry: Json, least: int, py: Python) {
    entry.Dict? && Truthy(Get(entry, "revisionName")) && Share(entry, py) >= least
  }

  function NameOf(entry: Json, py: Python): string { TextOf(Get(entry, "revisionName"), py) }

  /** The revision of the first entry that carries so much. */
  function FirstCarrying(entries: seq<Json>, least: int, py: Python): Option<string> {
    if entries == [] then None
    else
      var before, last := FirstCarrying(entries[..|entries| - 1], least, py), entries[|entries| - 1];
      if before.Some? then before else if Carries(last, least, py) then Some(NameOf(last, py)) else None
  }

  function Primary(spec: Json, py: Python): Result<string> {
    match StatusOf(spec)
    case Err(e) => Err(e)
    case Ok(status) =>
      var half, some := FirstCarrying(EntriesOf(status), 50, py), FirstCarrying(EntriesOf(status), 1, py);
      if half.Some? then Ok(Strip(half.value))
      else if some.Some? then Ok(Strip(some.value))
      else if Latest(status, py).Some? then Ok(Latest(status, py).value)
      else Err(NothingServing)
  }

  lemma {:induction false} FirstStays(entries: seq<Json>, i: nat, least: int, py: Python)
    requires i <= |entries| && FirstCarrying(entries[..i], least, py).Some?
    ensures FirstCarrying(entries, least, py) == FirstCarrying(entries[..i], least, py)
    decreases |entries|
  {
    if i == |entries| {
      assert entries[..i] == entries;
    } else {
      assert entries[..|entries| - 1][..i] == entries[..i];
      FirstStays(entries[..|entries| - 1], i, least, py);
    }
  }

  method FindCarrying(entries: seq<Json>, least: int, py: Python) returns (name: Option<string>)
    ensures name == FirstCarrying(entries, least, py)
  {
    for i := 0 to |entries|
      invariant FirstCarrying(entries[..i], least, py) == None
    {
      assert entries[..i + 1][..i] == entries[..i];
      var entry := entries[i];
      if entry.Dict? {
        var revision := Get(entry, "revisionName");
        if Truthy(revision) && Share(entry, py) >= least {
          FirstStays(entries, i + 1, least, py);
          return Some(TextOf(revision, py));
        }
      }
    }
    assert entries[..|entries|] == entries;
    name := None;
  }

  method ParsePrimaryRevision(spec: Json, py: Python) returns (r: Result<string>)
    ensures r == Primary(spec, py)
  {
    if !spec.Dict? { return Err(NotADict); }
    var status := Get(spec, "status");
    if !status.Dict? { return Err(NoStatus); }
    var name := FindCarrying(EntriesOf(status), 50, py);
    if name.Some? { return Ok(Strip(name.value)); }
    name := FindCarrying(EntriesOf(status), 1, py);
    if name.Some? { return Ok(Strip(name.value)); }
    var latest := Latest(status, py);
    if latest.Some? { return Ok(latest.value); }
    return Err(NothingServing);
  }

  // ----- the two parsers agree -----

  function FirstPair(pairs: seq<Pair>, least: nat): Option<Pair> {
    if pairs == [] then None
    else
      var before, last := FirstPair(pairs[..|pairs| - 1], least), pairs[|pairs| - 1];
      if before.Some? then before else if last.percent >= least then Some(last) else None
  }

  lemma EntryIsPair(entry: Json, least: nat, py: Python)
    requires Classify(entry, py).Ok? && least >= 1
    ensures var pair := Classify(entry, py).value;
      if pair.None? then !Carries(entry, least, py)
      else
        && (Carries(entry, least, py) <==> pair.value.percent >= least) && NameOf(entry, py) == pair.value.revision
        && pair.value.percent >= 1 && Strip(pair.value.revision) != ""
  {
  }

  lemma FirstPairOneMore(pairs: seq<Pair>, pair: Pair, least: nat)
    ensures FirstPair(pairs + [pair], least)
         == if FirstPair(pairs, least).Some? then FirstPair(pairs, least)
            else if pair.percent >= least then Some(pair) else None
  {
    assert (pairs + [pair])[..|pairs|] == pairs;
  }

  /** Once the allocations are accepted, the entries that count are the pairs. */
  lemma {:induction false} CarryingArePairs(entries: seq<Json>, least: nat, py: Python)
    requires Collect(entries, py).Ok? && least >= 1
    ensures var first := FirstPair(Collect(entries, py).value, least);
      FirstCarrying(entries, least, py) == if first.Some? then Some(first.value.revision) else None
    ensures forall p :: p in Collect(entries, py).value ==> p.percent >= 1 && Strip(p.revision) != ""
  {
    if entries != [] {
      var before, last := entries[..|entries| - 1], entries[|entries| - 1];
      CarryingArePairs(before, least, py);
      EntryIsPair(last, least, py);
      var pair := Classify(last, py).value;
      if pair.Some? { FirstPairOneMore(Collect(before, py).value, pair.value, least); }
    }
  }

  lemma {:induction false} FirstPairIsFirst(pairs: seq<Pair>, least: nat)
    ensures FirstPair(pairs, least).Some? ==>
              FirstPair(pairs, least).value in pairs && FirstPair(pairs, least).value.percent >= least
    ensures FirstPair(pairs, least).None? ==> forall p :: p in pairs ==> p.percent < least
  {
    if pairs != [] { FirstPairIsFirst(pairs[..|pairs| - 1], least); }
  }

  lemma {:induction false} OneShareFits(pairs: seq<Pair>, i: nat)
    requires i < |pairs|
    ensures pairs[i].percent <= Total(pairs)
  {
    if i < |pairs| - 1 { OneShareFits(pairs[..|pairs| - 1], i); }
  }

  lemma {:induction false} TwoSharesFit(pairs: seq<Pair>, i: nat, j: nat)
    requires i < j < |pairs|
    ensures pairs[i].percent + pairs[j].percent <= Total(pairs)
  {
    if j < |pairs| - 1 {
      TwoSharesFit(pairs[..|pairs| - 1], i, j);
    } else {
      OneShareFits(pairs[..j], i);
    }
  }

  lemma HalfIsMaximal(pairs: seq<Pair>, half: Pair, p: Pair)
    requires Total(pairs) == 100 && half in pairs && half.percent >= 50 && p in pairs
    ensures p.percent <= half.percent && (p.percent > 50 ==> p == half)
  {
    var i :| 0 <= i < |pairs| && pairs[i] == half;
    var j :| 0 <= j < |pairs| && pairs[j] == p;
    if i < j { TwoSharesFit(pairs, i, j); }
    if j < i { TwoSharesFit(pairs, j, i); }
  }

  /** Whenever the allocations are accepted the primary parser succeeds too. With shares: they sum to 100, and the
      primary is a listed revision, the one with more than half if there is one, and a largest one if it has half.
      Without shares: both name the latest ready revision. */
  lemma {:induction false} ParsersAgree(spec: Json, py: Python)
    requires Allocations(spec, py).Ok?
    ensures Primary(spec, py).Ok?
    ensures var status := StatusOf(spec).value;
      var pairs := Collect(EntriesOf(status), py).value;
      if pairs == [] then
        Allocations(spec, py) == Ok(Primary(spec, py).value + "=100")
            && Primary(spec, py) == Ok(Latest(status, py).value)
      else
        && Total(pairs) == 100 && Allocations(spec, py) == Ok(Join(PrintPairs(pairs), ","))
        && (exists p :: p in pairs && Primary(spec, py) == Ok(Strip(p.revision)))
        && (forall p :: p in pairs && p.percent > 50 ==> Primary(spec, py) == Ok(Strip(p.revision)))
        && (forall p :: p in pairs && p.percent >= 50 ==>
              exists h :: h in pairs && Primary(spec, py) == Ok(Strip(h.revision))
                          && forall q :: q in pairs ==> q.percent <= h.percent)
  {
    var status := StatusOf(spec).value;
    var entries := EntriesOf(status);
    var pairs := Collect(entries, py).value;
    CarryingArePairs(entries, 50, py);
    CarryingArePairs(entries, 1, py);
    FirstPairIsFirst(pairs, 50);
    FirstPairIsFirst(pairs, 1);
    if pairs != [] {
      assert pairs[0] in pairs;
      var half := FirstPair(pairs, 50);
      if half.Some? {
        forall p | p in pairs ensures p.percent <= half.value.percent && (p.percent > 50 ==> p == half.value) {
          HalfIsMaximal(pairs, half.value, p);
        }
      }
    }
  }

  // ----- the rollback command -----

  const TO_REVISIONS: string := "--to-revisions="

  function BuildRollbackCommand(service: string, project: string, region: string, alloc: string,
                                primary: string): Result<seq<string>> {
    var target := if alloc != "" then alloc else if primary != "" then primary + "=100" else "";
    if target == "" then Err(NothingServing)
    else Ok(["gcloud", "run", "services", "update-traffic", service,
             "--project=" + project, "--region=" + region, TO_REVISIONS + target])
  }

  /** The command asks for the allocation if there is one, else for the whole of the primary revision. */
  lemma RollbackTarget(service: string, project: string, region: string, alloc: string, primary: string)
    ensures var command := BuildRollbackCommand(service, project, region, alloc, primary);
      && (command.Err? <==> alloc == "" && primary == "")
      && (alloc != "" ==> command.value[7] == "--to-revisions=" + alloc)
      && (alloc == "" && primary != "" ==> command.value[7] == "--to-revisions=" + primary + "=100")
      && (command.Ok? ==>
            command.value[4..7] == [service, "--project=" + project, "--region=" + region])
  {
    if alloc == "" && primary != "" {
      assert (TO_REVISIONS + primary) + "=100" == TO_REVISIONS + (primary + "=100");
    }
  }

  /** A rollback built from accepted shares asks for exactly those shares. */
  lemma RollbackRestoresShares(spec: Json, py: Python, service: string, project: string, region: string,
                               primary: string)
    requires Allocations(spec, py).Ok?
    ensures var pairs := Collect(EntriesOf(StatusOf(spec).value), py).value;
      var command := BuildRollbackCommand(service, project, region, Allocations(spec, py).value, primary);
      && command.Ok? && TO_REVISIONS <= command.value[7]
      && (pairs != [] && (forall i :: 0 <= i < |pairs| ==> IsPlain(pairs[i].revision)) ==>
            Read(command.value[7][|TO_REVISIONS|..]) == Some(pairs))
  {
    var pairs := Collect(EntriesOf(StatusOf(spec).value), py).value;
    var alloc := Allocations(spec, py).value;
    if pairs != [] {
      PrintedReadsBackIffPlain(pairs);
      assert alloc == Join(PrintPairs(pairs), ",");
      assert |PrintPair(pairs[0])| > 0;
      assert PrintPairs(pairs)[0] == PrintPair(pairs[0]);
    }
    assert alloc != "";
    assert (TO_REVISIONS + alloc)[|TO_REVISIONS|..] == alloc;
  }
}
