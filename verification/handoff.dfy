/** The shooting schedule and the unit hand-off of backend/app/integrations/pdx_engine.py. */
module Handoff {
  import opened Numerals
  import opened Options
  import opened PyText

  /** A scene of the breakdown; absent entries take the source's defaults. */
  datatype Scene = Scene(number: Option<int>, locations: Option<seq<string>>, cast: Option<seq<string>>)

  datatype Row = Row(shootDay: nat, sceneNumber: int, location: string, cast: string)

  datatype Unit = Unit(name: string, scenes: seq<int>, lead: string)

  const UNASSIGNED: string := "[UNASSIGNED - PENDING SCRIPT CASTING]"

  // ----- the schedule -----

  function RowOf(scene: Scene, i: nat): Row {
    Row(i / 2 + 1,
        if scene.number.Some? then scene.number.value else i + 1,
        Join(if scene.locations.Some? then scene.locations.value else ["Soundstage 1"], ", "),
        Join(if scene.cast.Some? then scene.cast.value else ["Cast Ensemble"], ", "))
  }

  predicate HasDay(rows: seq<Row>, day: nat) { exists i :: 0 <= i < |rows| && rows[i].shootDay == day }

  /** Days run from 1 to the total without a gap, in order, and no day holds more than two scenes. */
  ghost predicate IsSchedule(rows: seq<Row>, total: nat) {
    && (forall i :: 0 <= i < |rows| ==> 1 <= rows[i].shootDay <= total)
    && (forall i, j :: 0 <= i < j < |rows| ==> rows[i].shootDay <= rows[j].shootDay)
    && (forall i, j :: 0 <= i && i + 2 <= j < |rows| ==> rows[i].shootDay < rows[j].shootDay)
    && (forall day: nat :: 1 <= day <= total && rows != [] ==> HasDay(rows, day))
  }

  method CinemaSchedule(scenes: seq<Scene>) returns (rows: seq<Row>, total: nat)
    ensures |rows| == |scenes| && forall i :: 0 <= i < |rows| ==> rows[i] == RowOf(scenes[i], i)
    ensures IsSchedule(rows, total) && (rows == [] ==> total == 1)
  {
    total := if (|scenes| + 1) / 2 > 1 then (|scenes| + 1) / 2 else 1;
    rows := [];
    for i := 0 to |scenes|
      invariant |rows| == i && forall k :: 0 <= k < i ==> rows[k] == RowOf(scenes[k], k)
    {
      rows := rows + [RowOf(scenes[i], i)];
    }
    forall day: nat | 1 <= day <= total && rows != [] ensures HasDay(rows, day) {
      assert rows[2 * (day - 1)].shootDay == day;
    }
  }

  // ----- the hand-off -----

  function LocationOf(row: Row): (loc: string)
    ensures loc != ""
  {
    var primary := Strip(SplitOn(row.location, ',')[0]);
    if primary != "" then primary else "Main Unit"
  }

  function FirstNamed(names: seq<string>): string {
    if names == [] then UNASSIGNED
    else
      var name := Strip(names[0]);
      if name != "" && name != "Cast Ensemble" then name else FirstNamed(names[1..])
  }

  function LeadOf(row: Row): string { FirstNamed(SplitOn(row.cast, ',')) }

  /** What the hand-off reads of a row. */
  datatype Entry = Entry(location: string, sceneNumber: int, lead: string)

  function EntryOf(row: Row): Entry { Entry(LocationOf(row), row.sceneNumber, LeadOf(row)) }

  function Entries(rows: seq<Row>): seq<Entry> {
    seq(|rows|, i requires 0 <= i < |rows| => EntryOf(rows[i]))
  }

  /** The scenes shot at a location, in schedule order. */
  function ScenesAt(entries: seq<Entry>, loc: string): seq<int> {
    if entries == [] then []
    else
      var last := entries[|entries| - 1];
      ScenesAt(entries[..|entries| - 1], loc) + (if last.location == loc then [last.sceneNumber] else [])
  }

  /** The locations, each where it first occurs. */
  function Locations(entries: seq<Entry>): (locs: seq<string>)
    ensures forall i, j :: 0 <= i < j < |locs| ==> locs[i] != locs[j]
  {
    if entries == [] then []
    else
      var before, loc := Locations(entries[..|entries| - 1]), entries[|entries| - 1].location;
      if loc in before then before else before + [loc]
  }

  /** The lead of a location is set once. */
  function LeadAt(entries: seq<Entry>, loc: string): string {
    if entries == [] then UNASSIGNED
    else
      var before := entries[..|entries| - 1];
      if loc in Locations(before) then LeadAt(before, loc) else entries[|entries| - 1].lead
  }

  // ----- what the hand-off makes of a scheduled scene -----

  lemma FirstPart(head: string, rest: string, whole: string)
    requires ',' !in head && (whole == head || whole == head + "," + rest)
    ensures SplitOn(whole, ',')[0] == head
  {
    if whole == head { SplitOne(head, ','); } else { SplitFirst(head, ',', rest); }
  }

  /** A row is shot at what stands before the first comma of its location, or with the main unit. */
  lemma LocationIsFirstPart(row: Row, head: string, rest: string)
    requires ',' !in head && (row.location == head || row.location == head + "," + rest)
    ensures LocationOf(row) == if IsBlank(head) then "Main Unit" else Strip(head)
  {
    FirstPart(head, rest, row.location);
    StripDropsOnlySpace(head);
  }

  predicate IsRealName(name: string) { !IsBlank(name) && Strip(name) != "Cast Ensemble" }

  lemma {:induction false} FirstNamedIsFirst(names: seq<string>)
    ensures (forall i :: 0 <= i < |names| ==> !IsRealName(names[i])) ==>
              FirstNamed(names) == "[UNASSIGNED - PENDING SCRIPT CASTING]"
    ensures forall k :: 0 <= k < |names| && IsRealName(names[k]) && (forall i :: 0 <= i < k ==> !IsRealName(names[i]))
              ==> FirstNamed(names) == Strip(names[k])
  {
    if names != [] {
      StripDropsOnlySpace(names[0]);
      FirstNamedIsFirst(names[1..]);
      assert forall i :: 0 < i < |names| ==> names[i] == names[1..][i - 1];
      if !IsRealName(names[0]) {
        forall k | 0 <= k < |names| && IsRealName(names[k]) && (forall i :: 0 <= i < k ==> !IsRealName(names[i]))
          ensures FirstNamed(names) == Strip(names[k])
        {
          forall i | 0 <= i < k - 1 ensures !IsRealName(names[1..][i]) {
            assert names[1..][i] == names[i + 1];
          }
        }
      }
    }
  }

  /** The joined names as splitting finds them: all but the first after a blank. */
  function Spaced(names: seq<string>): seq<string>
    requires names != []
  {
    [names[0]] + seq(|names| - 1, i requires 0 <= i < |names| - 1 => " " + names[i + 1])
  }

  lemma SplitAfterBlank(s: string)
    ensures SplitOn(" " + s, ',') == [" " + SplitOn(s, ',')[0]] + SplitOn(s, ',')[1..]
  {
    assert (" " + s)[1..] == s;
  }

  lemma SpacedTail(names: seq<string>)
    requires |names| > 1
    ensures Spaced(names) == [names[0]] + ([" " + names[1]] + Spaced(names[1..])[1..])
  {
  }

  lemma {:induction false} SplitOfNames(names: seq<string>)
    requires names != [] && forall i :: 0 <= i < |names| ==> ',' !in names[i]
    ensures SplitOn(Join(names, ", "), ',') == Spaced(names)
  {
    hide SplitOn;
    if |names| == 1 {
      SplitOne(names[0], ',');
    } else {
      var rest := Join(names[1..], ", ");
      SplitOfNames(names[1..]);
      SplitAfterBlank(rest);
      SplitFirst(names[0], ',', " " + rest);
      SpacedTail(names);
      assert Join(names, ", ") == names[0] + [','] + (" " + rest);
    }
  }

  lemma BlankBefore(name: string)
    ensures IsRealName(" " + name) <==> IsRealName(name)
    ensures Strip(" " + name) == Strip(name)
  {
    assert (" " + name)[1..] == name;
    StripDropsOnlySpace(name);
    StripDropsOnlySpace(" " + name);
  }

  ghost predicate IsFirstReal(names: seq<string>, k: nat) {
    k < |names| && IsRealName(names[k]) && forall i :: 0 <= i < k ==> !IsRealName(names[i])
  }

  lemma NobodyIsCast(row: Row)
    requires row.cast == "" || row.cast == "Cast Ensemble"
    ensures LeadOf(row) == "[UNASSIGNED - PENDING SCRIPT CASTING]"
  {
    hide Strip, FirstNamed, SplitOn;
    SplitOne(row.cast, ',');
    assert IsTrim("Cast Ensemble") && IsBlank("");
    FirstNamedIsFirst([row.cast]);
  }

  lemma RealNamesOfSpaced(names: seq<string>, i: nat)
    requires i < |names|
    ensures IsRealName(Spaced(names)[i]) <==> IsRealName(names[i])
    ensures Strip(Spaced(names)[i]) == Strip(names[i])
  {
    hide Strip, IsRealName;
    BlankBefore(names[i]);
  }

  /** The lead of a row is the first of its cast that is a name, or nobody yet. */
  lemma LeadIsFirstRealName(row: Row, names: seq<string>)
    requires row.cast == Join(names, ", ") && forall i :: 0 <= i < |names| ==> ',' !in names[i]
    ensures forall k: nat :: IsFirstReal(names, k) ==> LeadOf(row) == Strip(names[k])
    ensures (forall i :: 0 <= i < |names| ==> !IsRealName(names[i])) ==>
              LeadOf(row) == "[UNASSIGNED - PENDING SCRIPT CASTING]"
  {
    hide Strip, IsRealName, SplitOn, FirstNamed;
    if names == [] {
      NobodyIsCast(row);
    } else {
      SplitOfNames(names);
      FirstNamedIsFirst(Spaced(names));
      forall i: nat | i < |names|
        ensures IsRealName(Spaced(names)[i]) <==> IsRealName(names[i])
        ensures Strip(Spaced(names)[i]) == Strip(names[i])
      {
        RealNamesOfSpaced(names, i);
      }
    }
  }

  /** From a scene of the breakdown to its unit: the first location, up to a comma. */
  lemma LocationOfScene(scene: Scene, i: nat)
    ensures scene.locations.None? ==> LocationOf(RowOf(scene, i)) == "Soundstage 1"
    ensures scene.locations == Some([]) ==> LocationOf(RowOf(scene, i)) == "Main Unit"
    ensures forall first, rest :: scene.locations == Some([first] + rest) && ',' !in first ==>
              LocationOf(RowOf(scene, i)) == if IsBlank(first) then "Main Unit" else Strip(first)
  {
    hide LocationOf, Strip, IsBlank;
    if scene.locations.None? {
      LocationIsFirstPart(RowOf(scene, i), "Soundstage 1", "");
      StageIsTrim();
    } else if scene.locations == Some([]) {
      LocationIsFirstPart(RowOf(scene, i), "", "");
      StageIsTrim();
    }
    forall first, rest | scene.locations == Some([first] + rest) && ',' !in first
      ensures LocationOf(RowOf(scene, i)) == if IsBlank(first) then "Main Unit" else Strip(first)
    {
      JoinAfterFirst(first, rest);
      LocationIsFirstPart(RowOf(scene, i), first, " " + Join(rest, ", "));
    }
  }

  lemma StageIsTrim()
    ensures Strip("Soundstage 1") == "Soundstage 1" && !IsBlank("Soundstage 1") && IsBlank("")
  {
    assert IsTrim("Soundstage 1") && !IsSpace("Soundstage 1"[0]);
  }

  lemma JoinAfterFirst(first: string, rest: seq<string>)
    ensures Join([first] + rest, ", ") == if rest == [] then first else first + "," + (" " + Join(rest, ", "))
  {
    assert ([first] + rest)[1..] == rest;
    assert first + ", " + Join(rest, ", ") == first + "," + (" " + Join(rest, ", "));
  }

  /** From a scene of the breakdown to the hand-off: its number, or its place if it has none, and its lead. */
  lemma LeadOfScene(scene: Scene, i: nat)
    ensures RowOf(scene, i).sceneNumber == (match scene.number case Some(n) => n case None => i + 1)
    ensures scene.cast.None? || scene.cast == Some([]) ==>
              LeadOf(RowOf(scene, i)) == "[UNASSIGNED - PENDING SCRIPT CASTING]"
    ensures forall k: nat ::
              && scene.cast.Some? && (forall j :: 0 <= j < |scene.cast.value| ==> ',' !in scene.cast.value[j])
              && IsFirstReal(scene.cast.value, k)
              ==> LeadOf(RowOf(scene, i)) == Strip(scene.cast.value[k])
  {
    hide LeadOf, Strip, IsRealName;
    if scene.cast.None? || scene.cast == Some([]) {
      NobodyIsCast(RowOf(scene, i));
    } else if forall j :: 0 <= j < |scene.cast.value| ==> ',' !in scene.cast.value[j] {
      LeadIsFirstRealName(RowOf(scene, i), scene.cast.value);
    }
  }

  lemma {:induction false} LocationIsListed(entries: seq<Entry>, k: nat)
    requires k < |entries|
    ensures entries[k].location in Locations(entries)
  {
    if k < |entries| - 1 {
      LocationIsListed(entries[..|entries| - 1], k);
      assert entries[..|entries| - 1][k] == entries[k];
    }
  }

  lemma {:induction false} NowhereIsUnlisted(entries: seq<Entry>, loc: string)
    requires forall k :: 0 <= k < |entries| ==> entries[k].location != loc
    ensures loc !in Locations(entries)
  {
    if entries != [] { NowhereIsUnlisted(entries[..|entries| - 1], loc); }
  }

  ghost predicate IsFirstRow(entries: seq<Entry>, loc: string, k: nat) {
    k < |entries| && entries[k].location == loc && forall m :: 0 <= m < k ==> entries[m].location != loc
  }

  lemma {:induction false} FirstRowOf(entries: seq<Entry>, u: nat) returns (k: nat)
    requires u < |Locations(entries)|
    ensures IsFirstRow(entries, Locations(entries)[u], k)
  {
    var n := |entries| - 1;
    if u < |Locations(entries[..n])| {
      k := FirstRowOf(entries[..n], u);
      assert forall m :: 0 <= m <= k ==> entries[m] == entries[..n][m];
    } else {
      k := n;
      forall m | 0 <= m < n ensures entries[m].location != entries[n].location {
        LocationIsListed(entries[..n], m);
        assert entries[..n][m] == entries[m];
      }
    }
  }

  /** A location that is listed before another is one whose first row comes before the other's. */
  lemma {:induction false} LocationsComeInOrder(entries: seq<Entry>, u: nat, v: nat, k: nat, l: nat)
    requires u < |Locations(entries)| && IsFirstRow(entries, Locations(entries)[u], k)
    requires v < |Locations(entries)| && IsFirstRow(entries, Locations(entries)[v], l)
    ensures u < v <==> k < l
  {
    if u < v {
      EarlierListedIsEarlier(entries, u, v, k, l);
    } else if v < u {
      EarlierListedIsEarlier(entries, v, u, l, k);
    }
  }

  lemma {:induction false} EarlierListedIsEarlier(entries: seq<Entry>, u: nat, v: nat, k: nat, l: nat)
    requires u < v < |Locations(entries)|
    requires IsFirstRow(entries, Locations(entries)[u], k) && IsFirstRow(entries, Locations(entries)[v], l)
    ensures k < l
  {
    var n := |entries| - 1;
    var before := entries[..n];
    assert forall m :: 0 <= m < n ==> before[m] == entries[m];
    var first := FirstRowOf(before, u);
    assert k == first;
    if v < |Locations(before)| {
      var second := FirstRowOf(before, v);
      assert l == second;
      EarlierListedIsEarlier(before, u, v, k, l);
    } else if l < n {
      LocationIsListed(before, l);
    }
  }

  /** The lead comes from the first row of the location. */
  lemma {:induction false} LeadIsOfFirstRow(entries: seq<Entry>, i: nat)
    requires i < |entries| && forall k :: 0 <= k < i ==> entries[k].location != entries[i].location
    ensures LeadAt(entries, entries[i].location) == entries[i].lead
  {
    var n, loc := |entries| - 1, entries[i].location;
    if i < n {
      LocationIsListed(entries[..n], i);
      LeadIsOfFirstRow(entries[..n], i);
    } else {
      NowhereIsUnlisted(entries[..n], loc);
    }
  }

  function UnitName(idx: nat, loc: string): string { "Unit " + Print(idx, 10) + " - " + loc }

  /** One unit a location, in order of first occurrence, with all its scenes, led by the first name of its first row. */
  ghost predicate AreUnits(units: seq<Unit>, entries: seq<Entry>) {
    && |units| == |Locations(entries)|
    && forall u :: 0 <= u < |units| ==>
         var loc := Locations(entries)[u];
         units[u] == Unit(UnitName(u + 1, loc), ScenesAt(entries, loc), LeadAt(entries, loc))
  }

  lemma FirstMark(a: string, x: string, b: string, y: string, mark: char)
    requires mark !in a && mark !in b && a + [mark] + x == b + [mark] + y
    ensures a == b && x == y
  {
    var s := a + [mark] + x;
    assert s[|a|] == mark && s[|b|] == mark;
    assert forall i :: 0 <= i < |a| ==> s[i] == a[i];
    assert forall i :: 0 <= i < |b| ==> s[i] == b[i];
    assert a == s[..|a|] && b == s[..|b|] && x == s[|a| + 1..] && y == s[|b| + 1..];
  }

  lemma NumeralHasNoBlank(n: nat)
    ensures ' ' !in Print(n, 10)
  {
    assert !IsDigit(' ', 10) && IsNumeral(Print(n, 10), 10);
  }

  /** Units with different numbers or locations have different names. */
  lemma UnitNamesAreUnambiguous(i: nat, loc: string, j: nat, loc': string)
    requires UnitName(i, loc) == UnitName(j, loc')
    ensures i == j && loc == loc'
  {
    NumeralHasNoBlank(i);
    NumeralHasNoBlank(j);
    assert UnitName(i, loc)[5..] == Print(i, 10) + [' '] + ("- " + loc);
    assert UnitName(j, loc')[5..] == Print(j, 10) + [' '] + ("- " + loc');
    FirstMark(Print(i, 10), "- " + loc, Print(j, 10), "- " + loc', ' ');
    assert ("- " + loc)[2..] == loc && ("- " + loc')[2..] == loc';
    ValueOfPrint(i, 10);
    ValueOfPrint(j, 10);
  }

  // ----- no scene is lost or given twice -----

  function AllScenes(entries: seq<Entry>, locs: seq<string>): multiset<int> {
    if locs == [] then multiset{}
    else AllScenes(entries, locs[..|locs| - 1]) + multiset(ScenesAt(entries, locs[|locs| - 1]))
  }

  function Numbers(entries: seq<Entry>): seq<int> {
    if entries == [] then [] else Numbers(entries[..|entries| - 1]) + [entries[|entries| - 1].sceneNumber]
  }

  ghost predicate Distinct(locs: seq<string>) {
    forall i, j :: 0 <= i < j < |locs| ==> locs[i] != locs[j]
  }

  lemma {:induction false} OneMoreScene(entries: seq<Entry>, locs: seq<string>)
    requires entries != [] && Distinct(locs)
    ensures var last := entries[|entries| - 1];
      AllScenes(entries, locs)
        == AllScenes(entries[..|entries| - 1], locs)
            + (if last.location in locs then multiset{last.sceneNumber} else multiset{})
  {
    if locs != [] {
      var n, last, before := |locs| - 1, entries[|entries| - 1], entries[..|entries| - 1];
      OneMoreScene(entries, locs[..n]);
      assert last.location in locs <==> last.location in locs[..n] || last.location == locs[n] by {
        assert locs == locs[..n] + [locs[n]];
      }
      assert multiset(ScenesAt(entries, locs[n]))
          == multiset(ScenesAt(before, locs[n]))
              + (if last.location == locs[n] then multiset{last.sceneNumber} else multiset{});
    }
  }

  lemma {:induction false} NoScenesOfNoRows(locs: seq<string>)
    ensures AllScenes([], locs) == multiset{}
  {
    if locs != [] { NoScenesOfNoRows(locs[..|locs| - 1]); }
  }

  lemma {:induction false} ListedScenesAreAll(entries: seq<Entry>, locs: seq<string>)
    requires Distinct(locs) && forall i :: 0 <= i < |entries| ==> entries[i].location in locs
    ensures AllScenes(entries, locs) == multiset(Numbers(entries))
  {
    if entries == [] {
      NoScenesOfNoRows(locs);
    } else {
      var n := |entries| - 1;
      forall i | 0 <= i < n ensures entries[..n][i].location in locs {
        assert entries[..n][i] == entries[i];
      }
      OneMoreScene(entries, locs);
      ListedScenesAreAll(entries[..n], locs);
    }
  }

  /** Grouping conserves the scene numbers: together the units hold each as often as the schedule does. */
  lemma {:induction false} ScenesAreConserved(entries: seq<Entry>)
    ensures AllScenes(entries, Locations(entries)) == multiset(Numbers(entries))
  {
    forall i | 0 <= i < |entries| ensures entries[i].location in Locations(entries) {
      LocationIsListed(entries, i);
    }
    ListedScenesAreAll(entries, Locations(entries));
  }

  function Held(units: seq<Unit>): multiset<int> {
    if units == [] then multiset{} else Held(units[..|units| - 1]) + multiset(units[|units| - 1].scenes)
  }

  lemma {:induction false} HeldByUnits(units: seq<Unit>, entries: seq<Entry>, n: nat)
    requires AreUnits(units, entries) && n <= |units|
    ensures Held(units[..n]) == AllScenes(entries, Locations(entries)[..n])
  {
    if n > 0 {
      HeldByUnits(units, entries, n - 1);
      var locs := Locations(entries);
      assert units[..n][..n - 1] == units[..n - 1] && locs[..n][..n - 1] == locs[..n - 1];
      assert units[n - 1].scenes == ScenesAt(entries, locs[n - 1]);
    }
  }

  /** No scene is lost and none is given to two units. */
  lemma {:induction false} UnitsHoldTheSchedule(units: seq<Unit>, entries: seq<Entry>)
    requires AreUnits(units, entries)
    ensures Held(units) == multiset(Numbers(entries))
  {
    HeldByUnits(units, entries, |units|);
    assert units[..|units|] == units && Locations(entries)[..|units|] == Locations(entries);
    ScenesAreConserved(entries);
  }

  // ----- the loops -----

  ghost predicate GroupedAt(entries: seq<Entry>, order: seq<string>, groups: map<string, seq<int>>,
                            leads: map<string, string>, loc: string) {
    && (loc in order <==> loc in groups) && (loc in order <==> loc in leads)
    && (loc in order ==> groups[loc] == ScenesAt(entries, loc) && leads[loc] == LeadAt(entries, loc))
  }

  /** The two dictionaries after some rows; `order` is the insertion order. */
  ghost predicate Grouped(entries: seq<Entry>, order: seq<string>, groups: map<string, seq<int>>,
                          leads: map<string, string>) {
    order == Locations(entries) && forall loc :: GroupedAt(entries, order, groups, leads, loc)
  }

  lemma {:induction false} NoScenesBefore(entries: seq<Entry>, loc: string)
    requires loc !in Locations(entries)
    ensures ScenesAt(entries, loc) == []
  {
    if entries != [] {
      NoScenesBefore(entries[..|entries| - 1], loc);
    }
  }

  lemma OneMoreAt(entries: seq<Entry>, e: Entry, loc: string)
    ensures ScenesAt(entries + [e], loc) == ScenesAt(entries, loc) + (if e.location == loc then [e.sceneNumber] else [])
    ensures LeadAt(entries + [e], loc) == if loc in Locations(entries) then LeadAt(entries, loc) else e.lead
    ensures Locations(entries + [e])
         == if e.location in Locations(entries) then Locations(entries) else Locations(entries) + [e.location]
  {
    assert (entries + [e])[..|entries|] == entries;
  }

  lemma GroupedOneMore(entries: seq<Entry>, e: Entry, order: seq<string>, groups: map<string, seq<int>>,
                       leads: map<string, string>)
    requires Grouped(entries, order, groups, leads)
    ensures Grouped(entries + [e], if e.location in order then order else order + [e.location],
                    groups[e.location := (if e.location in groups then groups[e.location] else []) + [e.sceneNumber]],
                    if e.location in leads then leads else leads[e.location := e.lead])
  {
    var order', groups', leads' := if e.location in order then order else order + [e.location],
      groups[e.location := (if e.location in groups then groups[e.location] else []) + [e.sceneNumber]],
      if e.location in leads then leads else leads[e.location := e.lead];
    OneMoreAt(entries, e, e.location);
    forall loc ensures GroupedAt(entries + [e], order', groups', leads', loc) {
      assert GroupedAt(entries, order, groups, leads, loc) && GroupedAt(entries, order, groups, leads, e.location);
      OneMoreAt(entries, e, loc);
      if e.location !in order { NoScenesBefore(entries, e.location); }
    }
  }

  method GroupRows(entries: seq<Entry>)
    returns (order: seq<string>, groups: map<string, seq<int>>, leads: map<string, string>)
    ensures Grouped(entries, order, groups, leads)
  {
    order, groups, leads := [], map[], map[];
    for i := 0 to |entries|
      invariant Grouped(entries[..i], order, groups, leads)
    {
      var e := entries[i];
      assert GroupedAt(entries[..i], order, groups, leads, e.location);
      assert entries[..i + 1] == entries[..i] + [e];
      GroupedOneMore(entries[..i], e, order, groups, leads);
      groups := groups[e.location := (if e.location in groups then groups[e.location] else []) + [e.sceneNumber]];
      if e.location !in order { order := order + [e.location]; }
      if e.location !in leads { leads := leads[e.location := e.lead]; }
    }
    assert entries[..|entries|] == entries;
  }

  method UnitsInOrder(ghost entries: seq<Entry>, order: seq<string>, groups: map<string, seq<int>>,
                      leads: map<string, string>)
    returns (units: seq<Unit>)
    requires Grouped(entries, order, groups, leads)
    ensures AreUnits(units, entries)
  {
    units := [];
    for u := 0 to |order|
      invariant |units| == u
      invariant forall v :: 0 <= v < u ==>
        units[v] == Unit(UnitName(v + 1, order[v]), ScenesAt(entries, order[v]), LeadAt(entries, order[v]))
    {
      assert GroupedAt(entries, order, groups, leads, order[u]);
      units := units + [Unit(UnitName(u + 1, order[u]), groups[order[u]], leads[order[u]])];
    }
  }

  method HandoffUnits(rows: seq<Row>) returns (units: seq<Unit>)
    ensures rows != [] ==> AreUnits(units, Entries(rows)) && Held(units) == multiset(Numbers(Entries(rows)))
    ensures rows == [] ==> units == [Unit("Unit 1 - General Production", [1], UNASSIGNED)]
  {
    if rows == [] {
      return [Unit("Unit 1 - General Production", [1], UNASSIGNED)];
    }
    var entries := Entries(rows);
    var order, groups, leads := GroupRows(entries);
    units := UnitsInOrder(entries, order, groups, leads);
    UnitsHoldTheSchedule(units, entries);
  }
}
