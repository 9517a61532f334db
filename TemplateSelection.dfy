/**
  Picking one identifier out of a list-shaped response
  (dnac_template_helper.py): the "first record in which some field equals X"
  scans of get_parent_template_id and get_filtered_templateID, and
  get_filtered_version, which takes the largest `version` and then scans for
  its decimal numeral.
*/
module TemplateSelection {
  import opened Wrappers
  import opened Json

  /** The inner loop `for key in index: if index[key] == target`: some field of
      the record holds exactly the string `target`. Python's `==` between a
      string and any other kind of value is false. */
  function HasFieldEqual(r: Record, target: string): (b: bool)
    ensures b <==> exists k :: 0 <= k < |r| && r[k].1 == Str(target)
  {
    if r == [] then false
    else if r[0].1 == Str(target) then true
    else
      assert forall k :: 1 <= k < |r| ==> r[k] == r[1..][k - 1];
      HasFieldEqual(r[1..], target)
  }

  /** No record of the list has a field equal to `target`. */
  ghost predicate NoMatch(records: seq<Record>, target: string) {
    forall i :: 0 <= i < |records| ==> !HasFieldEqual(records[i], target)
  }

  /** Record `i` is the first, in list order, with a field equal to `target`. */
  ghost predicate IsFirstMatch(records: seq<Record>, target: string, i: int) {
    && 0 <= i < |records|
    && HasFieldEqual(records[i], target)
    && forall j :: 0 <= j < i ==> !HasFieldEqual(records[j], target)
  }

  /** The nested scan with early return: `field` of the first record with a
      field equal to `target` (`KeyError` if that record lacks it), or `None`
      (`Null`) when no record matches. */
  function FirstMatchField(records: seq<Record>, target: string, field: string): (r: Result<Value, PyError>)
    ensures NoMatch(records, target) ==> r == Ok(Null)
    ensures forall i :: IsFirstMatch(records, target, i) ==> r == Get(records[i], field)
  {
    if records == [] then Ok(Null)
    else if HasFieldEqual(records[0], target) then Get(records[0], field)
    else
      var r := FirstMatchField(records[1..], target, field);
      assert forall i :: IsFirstMatch(records, target, i) ==> i > 0 && IsFirstMatch(records[1..], target, i - 1);
      r
  }

  /** get_filtered_templateID: `templateId` of the first record holding `filter`. */
  function FilteredTemplateId(records: seq<Record>, filter: string): (r: Result<Value, PyError>)
    ensures NoMatch(records, filter) ==> r == Ok(Null)
    ensures forall i :: IsFirstMatch(records, filter, i) ==> r == Get(records[i], "templateId")
  {
    FirstMatchField(records, filter, "templateId")
  }

  /** The selection loop of get_parent_template_id: `id` of the first record
      holding `templateName`. */
  function ParentTemplateId(records: seq<Record>, templateName: string): (r: Result<Value, PyError>)
    ensures NoMatch(records, templateName) ==> r == Ok(Null)
    ensures forall i :: IsFirstMatch(records, templateName, i) ==> r == Get(records[i], "id")
  {
    FirstMatchField(records, templateName, "id")
  }

  // ---------------------------------------------------------------------------
  // get_filtered_version

  /** The values stored under `version` in one entry: what the first loop's
      `key == "version"` test picks out. */
  function VersionFields(r: Record): seq<Value> {
    if r == [] then [] else (if r[0].0 == "version" then [r[0].1] else []) + VersionFields(r[1..])
  }

  /** Every `version` value of the entries, in the order the first loop meets them. */
  function AllVersionFields(entries: seq<Record>): seq<Value> {
    if entries == [] then [] else VersionFields(entries[0]) + AllVersionFields(entries[1..])
  }

  /** The running maximum of the first loop, started at `acc`: it is replaced
      only by a strictly greater `int(value)`; an `int()` that raises ends it. */
  function RunningMax(acc: int, vs: seq<Value>): Result<int, PyError>
    decreases |vs|
  {
    if vs == [] then Ok(acc)
    else
      match ParseInt(vs[0])
      case Err(e) => Err(e)
      case Ok(n) => RunningMax(if n > acc then n else acc, vs[1..])
  }

  /** The running maximum is `max(acc, int(v) for every v)`: it fails exactly
      when some `int()` raises, and otherwise bounds every value from above and
      is either the start value or one of the values. */
  lemma {:induction false} RunningMaxIsMaximum(acc: int, vs: seq<Value>)
    ensures RunningMax(acc, vs).Ok? <==> forall i :: 0 <= i < |vs| ==> ParseInt(vs[i]).Ok?
    ensures RunningMax(acc, vs).Ok? ==> acc <= RunningMax(acc, vs).value
    ensures RunningMax(acc, vs).Ok? ==> forall i :: 0 <= i < |vs| ==> ParseInt(vs[i]).value <= RunningMax(acc, vs).value
    ensures RunningMax(acc, vs).Ok? ==>
      RunningMax(acc, vs).value == acc || exists i :: 0 <= i < |vs| && ParseInt(vs[i]) == Ok(RunningMax(acc, vs).value)
    decreases |vs|
  {
    if vs != [] {
      assert forall i :: 1 <= i < |vs| ==> vs[i] == vs[1..][i - 1];
      match ParseInt(vs[0])
      case Err(_) =>
      case Ok(n) =>
        var next := if n > acc then n else acc;
        RunningMaxIsMaximum(next, vs[1..]);
        var r := RunningMax(acc, vs);
        if r.Ok? && r.value != next {
          var i :| 0 <= i < |vs[1..]| && ParseInt(vs[1..][i]) == Ok(r.value);
          assert ParseInt(vs[i + 1]) == Ok(r.value);
        }
    }
  }

  /** The version the first loop settles on: `max(0, int(v) for every version v)`. */
  function MaxVersion(entries: seq<Record>): (r: Result<nat, PyError>)
    ensures r.Ok? <==> forall v :: v in AllVersionFields(entries) ==> ParseInt(v).Ok?
    ensures r.Ok? ==> forall v :: v in AllVersionFields(entries) ==> ParseInt(v).value <= r.value
    ensures r.Ok? ==> r.value == 0 || exists v :: v in AllVersionFields(entries) && ParseInt(v) == Ok(r.value as int)
  {
    RunningMaxIsMaximum(0, AllVersionFields(entries));
    match RunningMax(0, AllVersionFields(entries))
    case Ok(m) => Ok(m)
    case Err(e) => Err(e)
  }

  /** Both loops over `versionsInfo`: the `id` of the first entry with a field
      equal to `str(max)`, or `None`. */
  function SelectLatest(entries: seq<Record>): (r: Result<Value, PyError>)
    ensures MaxVersion(entries).Err? ==> r == Err(MaxVersion(entries).error)
    ensures MaxVersion(entries).Ok? && NoMatch(entries, Decimal(MaxVersion(entries).value)) ==> r == Ok(Null)
    ensures forall i :: MaxVersion(entries).Ok? && IsFirstMatch(entries, Decimal(MaxVersion(entries).value), i) ==>
      r == Get(entries[i], "id")
  {
    match MaxVersion(entries)
    case Err(e) => Err(e)
    case Ok(m) => FirstMatchField(entries, Decimal(m), "id")
  }

  /** get_filtered_version on the whole response: only
      `template_json[0]["versionsInfo"]` is looked at. */
  function LatestVersionId(body: Value): (r: Result<Value, PyError>)
    ensures body.Arr? && body.items == [] ==> r == Err(IndexError)
    ensures r.Ok? ==> body.Arr? && body.items != [] && body.items[0].Obj?
    ensures body.Arr? && body.items != [] && body.items[0].Obj? ==>
      match Lookup(body.items[0].fields, "versionsInfo")
      case None => r == Err(KeyError)
      case Some(info) =>
        && (AsRecords(info).Err? ==> r == Err(TypeError))
        && (AsRecords(info).Ok? ==> r == SelectLatest(AsRecords(info).value))
  {
    match First(body)
    case Err(e) => Err(e)
    case Ok(head) =>
      match Field(head, "versionsInfo")
      case Err(e) => Err(e)
      case Ok(info) =>
        match AsRecords(info)
        case Err(e) => Err(e)
        case Ok(entries) => SelectLatest(entries)
  }

  lemma VersionFieldsUnfold(r: Record, j: nat)
    requires j < |r|
    ensures VersionFields(r[j..]) == (if r[j].0 == "version" then [r[j].1] else []) + VersionFields(r[j + 1..])
  {
    assert r[j..][1..] == r[j + 1..];
  }

  lemma AllVersionFieldsUnfold(entries: seq<Record>, i: nat)
    requires i < |entries|
    ensures AllVersionFields(entries[i..]) == VersionFields(entries[i]) + AllVersionFields(entries[i + 1..])
  {
    assert entries[i..][1..] == entries[i + 1..];
  }

  /** Running the maximum over two stretches of values is running it over the
      first and carrying its result, or its exception, into the second. */
  lemma {:induction false} RunningMaxAppend(acc: int, a: seq<Value>, b: seq<Value>)
    ensures RunningMax(acc, a + b)
         == match RunningMax(acc, a) case Ok(m) => RunningMax(m, b) case Err(e) => Err(e)
    decreases |a|
  {
    if a == [] {
      assert a + b == b;
    } else {
      assert (a + b)[0] == a[0] && (a + b)[1..] == a[1..] + b;
      match ParseInt(a[0])
      case Err(_) =>
      case Ok(n) => RunningMaxAppend(if n > acc then n else acc, a[1..], b);
    }
  }

  /** The inner loop of the first loop: over one entry's fields, raise
      `version` to every strictly greater `int(index["version"])`. */
  method RecordMax(index: Record, version: nat) returns (r: Result<nat, PyError>)
    ensures r == match RunningMax(version, VersionFields(index)) case Ok(m) => Ok(m) case Err(e) => Err(e)
  {
    var v: nat := version;
    var j := 0;
    while j < |index|
      invariant 0 <= j <= |index|
      invariant RunningMax(version, VersionFields(index)) == RunningMax(v, VersionFields(index[j..]))
    {
      VersionFieldsUnfold(index, j);
      if index[j].0 == "version" {
        var vs := VersionFields(index[j..]);
        assert vs[0] == index[j].1 && vs[1..] == VersionFields(index[j + 1..]);
        var n := ParseInt(index[j].1);
        if n.Err? { return Err(n.error); }
        var next: nat := if n.value > v then n.value else v;
        assert RunningMax(v, vs) == RunningMax(next, vs[1..]);
        v := next;
      } else {
        assert VersionFields(index[j..]) == VersionFields(index[j + 1..]);
      }
      j := j + 1;
    }
    assert index[j..] == [];
    return Ok(v);
  }

  /** The first loop of get_filtered_version: `version` starts at 0 and is
      replaced whenever an entry's `int(index["version"])` is strictly greater. */
  method ComputeMaxVersion(entries: seq<Record>) returns (r: Result<nat, PyError>)
    ensures r == MaxVersion(entries)
  {
    var version: nat := 0;
    var i := 0;
    while i < |entries|
      invariant 0 <= i <= |entries|
      invariant RunningMax(0, AllVersionFields(entries)) == RunningMax(version, AllVersionFields(entries[i..]))
    {
      AllVersionFieldsUnfold(entries, i);
      RunningMaxAppend(version, VersionFields(entries[i]), AllVersionFields(entries[i + 1..]));
      var m := RecordMax(entries[i], version);
      if m.Err? { return Err(m.error); }
      version := m.value;
      i := i + 1;
    }
    assert entries[i..] == [];
    return Ok(version);
  }

  /** The second loop of get_filtered_version: return `index["id"]` at the
      first field equal to `target`, or fall off the end (`None`). */
  method FindVersionId(entries: seq<Record>, target: string) returns (r: Result<Value, PyError>)
    ensures r == FirstMatchField(entries, target, "id")
  {
    var i := 0;
    while i < |entries|
      invariant 0 <= i <= |entries|
      invariant forall k :: 0 <= k < i ==> !HasFieldEqual(entries[k], target)
    {
      var index := entries[i];
      var j := 0;
      while j < |index|
        invariant 0 <= j <= |index|
        invariant forall k :: 0 <= k < j ==> index[k].1 != Str(target)
      {
        if index[j].1 == Str(target) {
          assert IsFirstMatch(entries, target, i);
          return Get(index, "id");
        }
        j := j + 1;
      }
      i := i + 1;
    }
    return Ok(Null);
  }

  /** get_filtered_version as the source runs it: the running-maximum loop,
      then the scan for `str(version)`, both over `template_json[0]["versionsInfo"]`. */
  method FilteredVersion(body: Value) returns (r: Result<Value, PyError>)
    ensures r == LatestVersionId(body)
  {
    var head := First(body);
    if head.Err? { return Err(head.error); }
    var info := Field(head.value, "versionsInfo");
    if info.Err? { return Err(info.error); }
    var entries := AsRecords(info.value);
    if entries.Err? { return Err(entries.error); }
    var version := ComputeMaxVersion(entries.value);
    if version.Err? { return Err(version.error); }
    r := FindVersionId(entries.value, Decimal(version.value));
  }

  // ---------------------------------------------------------------------------
  // What get_filtered_version selects

  /** When every version is negative the first loop never moves off 0, so the
      second loop looks for the numeral "0". */
  lemma NegativeVersionsGiveZero(entries: seq<Record>)
    requires forall v :: v in AllVersionFields(entries) ==> ParseInt(v).Ok? && ParseInt(v).value < 0
    ensures MaxVersion(entries) == Ok(0)
    ensures SelectLatest(entries) == FirstMatchField(entries, "0", "id")
  {
    var vs := AllVersionFields(entries);
    assert forall i :: 0 <= i < |vs| ==> ParseInt(vs[i]).Ok? by {
      forall i | 0 <= i < |vs| ensures ParseInt(vs[i]).Ok? { assert vs[i] in vs; }
    }
  }

  /** Entry `k` carries the largest version, and no earlier entry carries it. */
  ghost predicate IsFirstMax(vers: seq<nat>, k: int) {
    && 0 <= k < |vers|
    && (forall j :: 0 <= j < |vers| ==> vers[j] <= vers[k])
    && (forall j :: 0 <= j < k ==> vers[j] < vers[k])
  }

  /** A non-empty string value made of decimal digits: one that `str(n)`
      could print. */
  predicate IsNumeral(v: Value) {
    v.Str? && |v.s| > 0 && AllDigits(v.s)
  }

  /** An entry of `versionsInfo` as the controller lists it: one `version`
      field holding the canonical numeral of `version`, an `id`, and any
      further fields, none of which holds a numeral string. */
  ghost predicate WellFormedEntry(e: Record, version: nat, id: Value) {
    && VersionFields(e) == [Str(Decimal(version))]
    && Get(e, "id") == Ok(id)
    && forall f :: 0 <= f < |e| && e[f].0 != "version" ==> !IsNumeral(e[f].1)
  }

  /** A field named `version` is among the entry's version values. */
  lemma {:induction false} VersionFieldListed(e: Record, f: nat)
    requires f < |e| && e[f].0 == "version"
    ensures e[f].1 in VersionFields(e)
  {
    if f > 0 {
      VersionFieldListed(e[1..], f - 1);
    }
  }

  /** Every version value of an entry is stored under some `version` field. */
  lemma {:induction false} VersionFieldStored(e: Record, v: Value)
    requires v in VersionFields(e)
    ensures exists f :: 0 <= f < |e| && e[f] == ("version", v)
  {
    if !(e[0].0 == "version" && e[0].1 == v) {
      VersionFieldStored(e[1..], v);
      var f :| 0 <= f < |e[1..]| && e[1..][f] == ("version", v);
      assert e[f + 1] == ("version", v);
    }
  }

  lemma {:induction false} AllVersionFieldsOfEntries(vers: seq<nat>, entries: seq<Record>)
    requires |vers| == |entries|
    requires forall i :: 0 <= i < |entries| ==> VersionFields(entries[i]) == [Str(Decimal(vers[i]))]
    ensures |AllVersionFields(entries)| == |vers|
    ensures forall i :: 0 <= i < |vers| ==> AllVersionFields(entries)[i] == Str(Decimal(vers[i]))
  {
    if entries != [] {
      AllVersionFieldsOfEntries(vers[1..], entries[1..]);
    }
  }

  /** On well-formed entries, whatever further fields they carry,
      get_filtered_version returns the identifier of the entry with the
      largest version, the earliest one when several share it. */
  lemma LatestVersionIsFirstMaximum(vers: seq<nat>, ids: seq<Value>, entries: seq<Record>, k: int)
    requires |vers| == |ids| == |entries|
    requires forall i :: 0 <= i < |entries| ==> WellFormedEntry(entries[i], vers[i], ids[i])
    requires IsFirstMax(vers, k)
    ensures SelectLatest(entries) == Ok(ids[k])
  {
    var vs := AllVersionFields(entries);
    AllVersionFieldsOfEntries(vers, entries);
    forall i | 0 <= i < |vs| ensures ParseInt(vs[i]) == Ok(vers[i] as int) {
      DecimalRoundTrip(vers[i]);
    }
    var m := MaxVersion(entries).value;
    assert m >= vers[k] by { assert ParseInt(vs[k]).value <= m; }
    assert m == vers[k];
    forall i | 0 <= i < |entries| ensures HasFieldEqual(entries[i], Decimal(m)) <==> vers[i] == m {
      var e := entries[i];
      if HasFieldEqual(e, Decimal(m)) {
        var f :| 0 <= f < |e| && e[f].1 == Str(Decimal(m));
        assert IsNumeral(e[f].1);
        VersionFieldListed(e, f);
        DecimalInjective(vers[i], m);
      }
      if vers[i] == m {
        VersionFieldStored(e, Str(Decimal(m)));
        var f :| 0 <= f < |e| && e[f] == ("version", Str(Decimal(m)));
        assert e[f].1 == Str(Decimal(m));
      }
    }
    assert IsFirstMatch(entries, Decimal(m), k);
  }

  /** A record holding only a version numeral and an identifier. */
  function VersionEntry(version: nat, id: Value): Record {
    [("version", Str(Decimal(version))), ("id", id)]
  }

  lemma VersionEntryWellFormed(version: nat, id: Value)
    requires !IsNumeral(id)
    ensures WellFormedEntry(VersionEntry(version, id), version, id)
  {
    var e := VersionEntry(version, id);
    assert e[1..][1..] == [];
    assert VersionFields(e[1..]) == [];
    assert e[0].0 != "id" by { assert e[0].0[0] != "id"[0]; }
    assert Lookup(e[1..], "id") == Some(id);
  }

  /** Versions "1", "3", "2": the entry tagged "3" is chosen. */
  lemma PicksHighestVersion()
    ensures SelectLatest([VersionEntry(1, Str("a")), VersionEntry(3, Str("b")), VersionEntry(2, Str("c"))]) == Ok(Str("b"))
  {
    var vers: seq<nat>, ids := [1, 3, 2], [Str("a"), Str("b"), Str("c")];
    var entries := [VersionEntry(1, Str("a")), VersionEntry(3, Str("b")), VersionEntry(2, Str("c"))];
    forall i | 0 <= i < 3 ensures WellFormedEntry(entries[i], vers[i], ids[i]) {
      assert !IsDigit(ids[i].s[0]);
      VersionEntryWellFormed(vers[i], ids[i]);
    }
    assert IsFirstMax(vers, 1);
    LatestVersionIsFirstMaximum(vers, ids, entries, 1);
  }

  /** Two entries with version "3": the first one listed is chosen. */
  lemma TieGoesToFirst()
    ensures SelectLatest([VersionEntry(3, Str("a")), VersionEntry(3, Str("b"))]) == Ok(Str("a"))
  {
    var vers: seq<nat>, ids := [3, 3], [Str("a"), Str("b")];
    var entries := [VersionEntry(3, Str("a")), VersionEntry(3, Str("b"))];
    forall i | 0 <= i < 2 ensures WellFormedEntry(entries[i], vers[i], ids[i]) {
      assert !IsDigit(ids[i].s[0]);
      VersionEntryWellFormed(vers[i], ids[i]);
    }
    assert IsFirstMax(vers, 0);
    LatestVersionIsFirstMaximum(vers, ids, entries, 0);
  }

  /** A version written "03" counts as 3 in the first loop but never equals
      `str(3)` in the second, so nothing is selected. */
  lemma NonCanonicalVersionSelectsNothing()
    ensures SelectLatest([[("version", Str("03")), ("id", Str("a"))]]) == Ok(Null)
  {
    var e: Record := [("version", Str("03")), ("id", Str("a"))];
    var entries := [e];
    assert VersionFields(e[1..]) == [] by { assert e[1..][1..] == []; }
    assert VersionFields(e) == [Str("03")];
    assert AllVersionFields(entries) == [Str("03")] by { assert entries[1..] == []; }
    assert DigitsValue("03") == 3 by { assert "03"[..1] == "0"; assert "0"[..0] == []; }
    assert ParseInt(Str("03")) == Ok(3);
    assert RunningMax(0, [Str("03")]) == Ok(3) by { assert [Str("03")][1..] == []; }
    assert Decimal(3) == "3";
    assert Str("03") != Str("3") by { assert |"03"| != |"3"|; }
    assert Str("a") != Str("3") by { assert "a"[0] != "3"[0]; }
    assert !HasFieldEqual(e, "3");
    assert NoMatch(entries, "3");
  }

  /** Only `template_json[0]` is consulted: the rest of the outer list never
      affects the result. */
  lemma OnlyFirstElementConsulted(head: Value, rest1: seq<Value>, rest2: seq<Value>)
    ensures LatestVersionId(Arr([head] + rest1)) == LatestVersionId(Arr([head] + rest2))
  {
  }
}
