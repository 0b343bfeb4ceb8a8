/**
 * The decision rules of the simulation page: when a run may start, how the rows of the
 * boundary-condition file become object names, board sides, exclusions, priorities,
 * mesh sizes and boundary-condition actions, and how a flow or gravity direction
 * becomes region padding, openings and initial velocities. The solver session is
 * represented by plain data (object names, a volume per object, face ids).
 */
module Simulate {
  import opened Results
  import opened Text
  import opened Lists

  const NoRefDes := "NOREFDES"
  const RegionName := "Region"
  const MissingInputs := "One or more input files are missing"
  const BadBlockBc := "Error! Incorrect block boundary condition."
  const ColumnMismatch := "13 columns passed, passed data had a different number of columns"

  // ---------------------------------------------------------------------------------
  // Precondition gate

  /** Python truthiness of a session entry that may be unset. */
  predicate Truthy(v: Option<string>) { v.Some? && v.value != "" }

  datatype RunInputs = RunInputs(
    idfFile: Option<string>,
    ecadFile: Option<string>,
    bcFilename: Option<string>,
    convCond: bool,
    airTemp: string,
    projectName: string)

  /** The run starts only when every input is set; otherwise one error is reported. */
  function Gate(inputs: RunInputs): (r: Result<()>)
    ensures r.Ok? <==> Truthy(inputs.idfFile) && Truthy(inputs.ecadFile) && Truthy(inputs.bcFilename)
                       && inputs.convCond && inputs.airTemp != "" && inputs.projectName != ""
    ensures r.Err? ==> r.message == MissingInputs
  {
    if Truthy(inputs.idfFile) && Truthy(inputs.ecadFile) && Truthy(inputs.bcFilename)
       && inputs.convCond && inputs.airTemp != "" && inputs.projectName != ""
    then Ok(())
    else Err(MissingInputs)
  }

  // ---------------------------------------------------------------------------------
  // Object names: re.sub(r"\W", "_", name)

  predicate IsWordChar(c: char)
  {
    'a' <= c <= 'z' || 'A' <= c <= 'Z' || '0' <= c <= '9' || c == '_'
  }

  predicate AllWordChars(s: string) { forall k :: 0 <= k < |s| ==> IsWordChar(s[k]) }

  function NameCleanup(name: string): (r: string)
    ensures |r| == |name|
    ensures AllWordChars(r)
    ensures forall k :: 0 <= k < |name| ==> r[k] == if IsWordChar(name[k]) then name[k] else '_'
  {
    if |name| == 0 then ""
    else [if IsWordChar(name[0]) then name[0] else '_'] + NameCleanup(name[1..])
  }

  /** A name made only of word characters is its own object name. */
  lemma {:induction false} NameCleanupKeepsWords(name: string)
    requires AllWordChars(name)
    ensures NameCleanup(name) == name
  {
    var r := NameCleanup(name);
    assert forall k :: 0 <= k < |r| ==> r[k] == name[k];
  }

  lemma {:induction false} NameCleanupIdempotent(name: string)
    ensures NameCleanup(NameCleanup(name)) == NameCleanup(name)
  {
    NameCleanupKeepsWords(NameCleanup(name));
  }

  // ---------------------------------------------------------------------------------
  // Rows of the boundary-condition file, under the 13 column names of the data frame

  datatype BcRow = BcRow(
    included: string,
    packageName: string,
    partName: string,
    instanceName: string,
    designatorType: string,
    height: string,
    placement: string,
    bcType: string,
    power: string,
    rjb: string,
    rjc: string,
    monitorPoint: string,
    material: string)

  const ColumnCount := 13

  function RowOf(f: seq<string>): BcRow
    requires |f| == ColumnCount
  {
    BcRow(f[0], f[1], f[2], f[3], f[4], f[5], f[6], f[7], f[8], f[9], f[10], f[11], f[12])
  }

  function RowFields(r: BcRow): seq<string>
  {
    [r.included, r.packageName, r.partName, r.instanceName, r.designatorType, r.height,
     r.placement, r.bcType, r.power, r.rjb, r.rjc, r.monitorPoint, r.material]
  }

  /** Naming the columns loses nothing: the record and the field list determine each other. */
  lemma {:induction false} RowRoundTrip(f: seq<string>, r: BcRow)
    requires |f| == ColumnCount
    ensures RowFields(RowOf(f)) == f
    ensures RowOf(RowFields(r)) == r
  {
  }

  /** The data frame accepts the csv rows only when every row has the 13 columns. */
  function ReadRows(raw: seq<seq<string>>): (r: Result<seq<BcRow>>)
    ensures r.Ok? <==> forall i :: 0 <= i < |raw| ==> |raw[i]| == ColumnCount
    ensures r.Ok? ==> |r.value| == |raw| && forall i :: 0 <= i < |raw| ==> RowFields(r.value[i]) == raw[i]
    ensures r.Err? ==> r.message == ColumnMismatch
  {
    if |raw| == 0 then Ok([])
    else if |raw[0]| != ColumnCount then Err(ColumnMismatch)
    else match ReadRows(raw[1..])
      case Err(m) => Err(m)
      case Ok(rest) =>
        assert forall i :: 1 <= i < |raw| ==> raw[i] == raw[1..][i - 1];
        Ok([RowOf(raw[0])] + rest)
  }

  /** The width of the widest row, or 0 when there are no rows. */
  function MaxWidth(raw: seq<seq<string>>): (w: nat)
    ensures forall i :: 0 <= i < |raw| ==> |raw[i]| <= w
    ensures |raw| > 0 ==> exists i :: 0 <= i < |raw| && |raw[i]| == w
    ensures |raw| == 0 ==> w == 0
    decreases |raw|
  {
    if |raw| == 0 then 0
    else
      var m := MaxWidth(raw[1..]);
      assert forall i :: 1 <= i < |raw| ==> raw[i] == raw[1..][i - 1];
      if |raw[0]| >= m then |raw[0]| else
        assert exists i :: 0 <= i < |raw[1..]| && |raw[1..][i]| == m;
        m
  }

  /** A row the loops over the csv rows (lines 610-665) can index: fields 0 and 3 always,
      field 6 when the row names a component. */
  predicate Indexable(row: seq<string>)
  {
    |row| > 3 && (row[3] != NoRefDes ==> |row| > 6)
  }

  /**
   * Whether the page gets past its loops over the csv rows and the data frame built from
   * them: the side loop (lines 610-616) raises on a row it cannot index, and pd.DataFrame
   * (line 840) pads every row shorter than the widest with None, raising only when the
   * widest row is not 13 fields wide.
   */
  function RowsAccepted(raw: seq<seq<string>>): (r: Result<()>)
    ensures r.Ok? <==> (forall i :: 0 <= i < |raw| ==> Indexable(raw[i]) && |raw[i]| <= ColumnCount)
                       && (|raw| == 0 || exists i :: 0 <= i < |raw| && |raw[i]| == ColumnCount)
    ensures r == Err(IndexOutOfRange) <==> exists i :: 0 <= i < |raw| && !Indexable(raw[i])
    ensures r.Err? ==> r.message == IndexOutOfRange || r.message == ColumnMismatch
  {
    if exists i :: 0 <= i < |raw| && !Indexable(raw[i]) then Err(IndexOutOfRange)
    else if |raw| > 0 && MaxWidth(raw) != ColumnCount then Err(ColumnMismatch)
    else Ok(())
  }

  /** ReadRows loads exactly the row lists the page accepts whose rows are all 13 wide: it
      refuses no file the page loads unpadded, and loads no file the page refuses. */
  lemma {:induction false} ReadRowsAccepted(raw: seq<seq<string>>)
    ensures ReadRows(raw).Ok? <==> RowsAccepted(raw).Ok? && forall i :: 0 <= i < |raw| ==> |raw[i]| == ColumnCount
  {
    if forall i :: 0 <= i < |raw| ==> |raw[i]| == ColumnCount {
      assert forall i :: 0 <= i < |raw| ==> Indexable(raw[i]);
      if |raw| > 0 {
        assert |raw[0]| == ColumnCount;
      }
    }
  }

  /** A row shorter than 13 that the loops can index is padded and loaded by the page next to
      a full row, while ReadRows refuses the pair. */
  lemma {:induction false} PaddedRowRefused(full: seq<string>, short: seq<string>)
    requires |full| == ColumnCount && Indexable(short) && |short| < ColumnCount
    ensures RowsAccepted([full, short]) == Ok(())
    ensures ReadRows([full, short]) == Err(ColumnMismatch)
  {
    assert [full, short][0] == full && [full, short][1] == short;
  }

  /** A blank line is an empty row, which the side loop cannot index: the page raises before
      the data frame is built. */
  lemma {:induction false} BlankLineRaises(raw: seq<seq<string>>, i: nat)
    requires i < |raw| && raw[i] == []
    ensures RowsAccepted(raw) == Err(IndexOutOfRange)
  {
    assert !Indexable(raw[i]);
  }

  // ---------------------------------------------------------------------------------
  // TOP/BOTTOM partition

  predicate OnSide(r: BcRow, side: string)
  {
    r.instanceName != NoRefDes && r.placement == side
  }

  function SideName(r: BcRow, side: string): seq<string>
  {
    if OnSide(r, side) then [NameCleanup(r.instanceName)] else []
  }

  /** The cleaned names of the rows placed on `side`, in row order. */
  function SideNames(rows: seq<BcRow>, side: string): (names: seq<string>)
    ensures |names| <= |rows|
  {
    if |rows| == 0 then [] else SideNames(rows[..|rows| - 1], side) + SideName(rows[|rows| - 1], side)
  }

  /** Both lists are filled by one pass over the rows. */
  method PartitionBySide(rows: seq<BcRow>) returns (top: seq<string>, bottom: seq<string>)
    ensures top == SideNames(rows, "TOP")
    ensures bottom == SideNames(rows, "BOTTOM")
  {
    top := [];
    bottom := [];
    var i := 0;
    while i < |rows|
      invariant 0 <= i <= |rows|
      invariant top == SideNames(rows[..i], "TOP")
      invariant bottom == SideNames(rows[..i], "BOTTOM")
    {
      assert rows[..i + 1][..i] == rows[..i];
      if rows[i].instanceName != NoRefDes {
        var blockName := NameCleanup(rows[i].instanceName);
        if rows[i].placement == "TOP" {
          top := top + [blockName];
        }
        if rows[i].placement == "BOTTOM" {
          bottom := bottom + [blockName];
        }
      }
      i := i + 1;
    }
    assert rows[..|rows|] == rows;
  }

  /** The lists keep row order: the names of a concatenation are the concatenated names. */
  lemma {:induction false} SideNamesAppend(a: seq<BcRow>, b: seq<BcRow>, side: string)
    ensures SideNames(a + b, side) == SideNames(a, side) + SideNames(b, side)
    decreases |b|
  {
    if |b| == 0 {
      assert a + b == a;
    } else {
      assert (a + b)[..|a + b| - 1] == a + b[..|b| - 1];
      SideNamesAppend(a, b[..|b| - 1], side);
    }
  }

  /** A name is on a side exactly when some row with that placement cleans up to it. */
  lemma {:induction false} SideNamesMembers(rows: seq<BcRow>, side: string, name: string)
    ensures name in SideNames(rows, side) <==>
            exists i :: 0 <= i < |rows| && OnSide(rows[i], side) && NameCleanup(rows[i].instanceName) == name
  {
    if |rows| > 0 {
      var init := rows[..|rows| - 1];
      SideNamesMembers(init, side, name);
      if name in SideNames(rows, side) && name !in SideNames(init, side) {
        assert OnSide(rows[|rows| - 1], side) && NameCleanup(rows[|rows| - 1].instanceName) == name;
      }
      if exists i :: 0 <= i < |rows| && OnSide(rows[i], side) && NameCleanup(rows[i].instanceName) == name {
        var i :| 0 <= i < |rows| && OnSide(rows[i], side) && NameCleanup(rows[i].instanceName) == name;
        if i < |rows| - 1 {
          assert init[i] == rows[i];
        }
      }
    }
  }

  /** No row lands on both sides. */
  lemma {:induction false} SidesShareNoRow(rows: seq<BcRow>)
    ensures |SideNames(rows, "TOP")| + |SideNames(rows, "BOTTOM")| <= |rows|
  {
    if |rows| > 0 {
      SidesShareNoRow(rows[..|rows| - 1]);
    }
  }

  // ---------------------------------------------------------------------------------
  // Excluded rows: deleted, or kept as non-model objects

  datatype Exclusion = Delete(name: string) | MakeNonModel(name: string)

  predicate Excluded(r: BcRow) { r.included == "NO" && r.instanceName != NoRefDes }

  function ExclusionOf(r: BcRow, deleteFiltered: bool): Exclusion
  {
    var blockName := NameCleanup(r.instanceName);
    if deleteFiltered then Delete(blockName) else MakeNonModel(blockName)
  }

  /** One action per excluded row, in row order. */
  function Exclusions(rows: seq<BcRow>, deleteFiltered: bool): (es: seq<Exclusion>)
    ensures |es| <= |rows|
    ensures forall e :: e in es ==> e.Delete? == deleteFiltered
  {
    if |rows| == 0 then []
    else
      Exclusions(rows[..|rows| - 1], deleteFiltered)
      + (if Excluded(rows[|rows| - 1]) then [ExclusionOf(rows[|rows| - 1], deleteFiltered)] else [])
  }

  lemma {:induction false} ExclusionsMembers(rows: seq<BcRow>, deleteFiltered: bool, name: string)
    ensures (exists e :: e in Exclusions(rows, deleteFiltered) && e.name == name) <==>
            exists i :: 0 <= i < |rows| && Excluded(rows[i]) && NameCleanup(rows[i].instanceName) == name
  {
    if |rows| > 0 {
      var init := rows[..|rows| - 1];
      ExclusionsMembers(init, deleteFiltered, name);
      if exists i :: 0 <= i < |rows| && Excluded(rows[i]) && NameCleanup(rows[i].instanceName) == name {
        var i :| 0 <= i < |rows| && Excluded(rows[i]) && NameCleanup(rows[i].instanceName) == name;
        if i < |rows| - 1 {
          assert init[i] == rows[i];
        } else {
          assert ExclusionOf(rows[i], deleteFiltered) in Exclusions(rows, deleteFiltered);
        }
      }
      if exists e :: e in Exclusions(rows, deleteFiltered) && e.name == name {
        var e :| e in Exclusions(rows, deleteFiltered) && e.name == name;
        if e !in Exclusions(init, deleteFiltered) {
          assert Excluded(rows[|rows| - 1]) && NameCleanup(rows[|rows| - 1].instanceName) == name;
        }
      }
    }
  }

  /** The session's objects: each name with its model flag. */
  type Objects = map<string, bool>

  /** A lookup of a missing object yields None, whose attribute access raises. */
  function ApplyExclusion(objects: Objects, e: Exclusion): (r: Result<Objects>)
    ensures r.Ok? <==> e.name in objects
  {
    if e.name !in objects then Err(NoSuchObject)
    else match e
      case Delete(n) => Ok(objects - {n})
      case MakeNonModel(n) => Ok(objects[n := false])
  }

  function ApplyExclusions(objects: Objects, es: seq<Exclusion>): Result<Objects>
    decreases |es|
  {
    if |es| == 0 then Ok(objects)
    else match ApplyExclusion(objects, es[0])
      case Err(m) => Err(m)
      case Ok(next) => ApplyExclusions(next, es[1..])
  }

  /** Objects no action names are left exactly as they were. */
  lemma {:induction false} ExclusionsTouchNothingElse(objects: Objects, es: seq<Exclusion>, k: string)
    requires ApplyExclusions(objects, es).Ok?
    requires forall e :: e in es ==> e.name != k
    ensures var after := ApplyExclusions(objects, es).value;
            (k in after <==> k in objects) && (k in objects ==> after[k] == objects[k])
    decreases |es|
  {
    if |es| > 0 {
      var next := ApplyExclusion(objects, es[0]).value;
      assert es[0] in es;
      assert forall e :: e in es[1..] ==> e in es;
      ExclusionsTouchNothingElse(next, es[1..], k);
    }
  }

  /** A deleted object is gone; an object only marked is kept and is non-model. */
  lemma {:induction false} ExclusionsEffect(objects: Objects, es: seq<Exclusion>, k: string)
    requires ApplyExclusions(objects, es).Ok?
    ensures Delete(k) in es ==> k !in ApplyExclusions(objects, es).value
    ensures MakeNonModel(k) in es && Delete(k) !in es ==>
            k in ApplyExclusions(objects, es).value && !ApplyExclusions(objects, es).value[k]
    decreases |es|
  {
    if |es| > 0 {
      var next := ApplyExclusion(objects, es[0]).value;
      var rest := es[1..];
      assert es == [es[0]] + rest;
      ExclusionsEffect(next, rest, k);
      if es[0] == Delete(k) && Delete(k) !in rest {
        assert k !in next;
        forall e | e in rest ensures e.name != k {
          if e.name == k {
            assert ApplyExclusions(next, rest).Ok?;
            ExclusionFailsOnMissing(next, rest, e);
          }
        }
        ExclusionsTouchNothingElse(next, rest, k);
      }
      if es[0] == MakeNonModel(k) && MakeNonModel(k) !in rest && Delete(k) !in es {
        assert k in next && !next[k];
        forall e | e in rest ensures e.name != k {
          assert e == Delete(e.name) || e == MakeNonModel(e.name);
        }
        ExclusionsTouchNothingElse(next, rest, k);
      }
    }
  }

  /** An action on an object that is already gone fails the run. */
  lemma {:induction false} ExclusionFailsOnMissing(objects: Objects, es: seq<Exclusion>, e: Exclusion)
    requires e in es
    requires e.name !in objects
    requires forall d :: d in es ==> d.name == e.name ==> d.name !in objects
    ensures ApplyExclusions(objects, es).Err?
    decreases |es|
  {
    if es[0] == e || es[0].name == e.name {
    } else {
      var next := ApplyExclusion(objects, es[0]);
      if next.Ok? {
        assert e in es[1..];
        assert forall d :: d in es[1..] ==> d in es;
        ExclusionFailsOnMissing(next.value, es[1..], e);
      }
    }
  }

  // ---------------------------------------------------------------------------------
  // Volume-ordered priority list

  /** The keys of obj_dict: each solid body except the region, once, at its first occurrence. */
  function BodyKeys(solidBodies: seq<string>): (keys: seq<string>)
    ensures Distinct(keys)
    ensures forall b :: b in keys <==> b in solidBodies && b != RegionName
  {
    if |solidBodies| == 0 then []
    else
      var init := BodyKeys(solidBodies[..|solidBodies| - 1]);
      var b := solidBodies[|solidBodies| - 1];
      assert forall x :: x in solidBodies <==> x in solidBodies[..|solidBodies| - 1] || x == b;
      if b == RegionName || b in init then init else init + [b]
  }

  predicate NonIncreasing(xs: seq<string>, volume: string -> real)
  {
    forall i, j :: 0 <= i < j < |xs| ==> volume(xs[i]) >= volume(xs[j])
  }

  /** Places x after every element at least as large, so earlier equals stay first. */
  function InsertByVolume(x: string, sorted: seq<string>, volume: string -> real): seq<string>
  {
    if |sorted| == 0 then [x]
    else if volume(sorted[0]) < volume(x) then [x] + sorted
    else [sorted[0]] + InsertByVolume(x, sorted[1..], volume)
  }

  /** sorted(..., key=volume, reverse=True), which is stable. */
  function SortByVolume(xs: seq<string>, volume: string -> real): seq<string>
  {
    if |xs| == 0 then []
    else InsertByVolume(xs[|xs| - 1], SortByVolume(xs[..|xs| - 1], volume), volume)
  }

  lemma {:induction false} InsertPermutes(x: string, sorted: seq<string>, volume: string -> real)
    ensures multiset(InsertByVolume(x, sorted, volume)) == multiset(sorted) + multiset{x}
  {
    if |sorted| > 0 && volume(sorted[0]) >= volume(x) {
      assert sorted == [sorted[0]] + sorted[1..];
      InsertPermutes(x, sorted[1..], volume);
    }
  }

  /** The sort is a permutation. */
  lemma {:induction false} SortByVolumePermutes(xs: seq<string>, volume: string -> real)
    ensures multiset(SortByVolume(xs, volume)) == multiset(xs)
  {
    if |xs| > 0 {
      assert xs == xs[..|xs| - 1] + [xs[|xs| - 1]];
      SortByVolumePermutes(xs[..|xs| - 1], volume);
      InsertPermutes(xs[|xs| - 1], SortByVolume(xs[..|xs| - 1], volume), volume);
    }
  }

  /** Every element of a non-increasing list is at most its first. */
  lemma {:induction false} HeadIsLargest(s: seq<string>, volume: string -> real)
    requires |s| > 0 && NonIncreasing(s, volume)
    ensures forall z :: z in s ==> volume(z) <= volume(s[0])
  {
    forall z | z in s ensures volume(z) <= volume(s[0]) {
      var k :| 0 <= k < |s| && s[k] == z;
      if k > 0 {
        assert volume(s[0]) >= volume(s[k]);
      }
    }
  }

  lemma {:induction false} TailNonIncreasing(s: seq<string>, volume: string -> real)
    requires |s| > 0 && NonIncreasing(s, volume)
    ensures NonIncreasing(s[1..], volume)
  {
    var t := s[1..];
    forall i, j | 0 <= i < j < |t| ensures volume(t[i]) >= volume(t[j]) {
      assert t[i] == s[i + 1] && t[j] == s[j + 1];
    }
  }

  lemma {:induction false} ConsNonIncreasing(y: string, s: seq<string>, volume: string -> real)
    requires NonIncreasing(s, volume)
    requires forall z :: z in s ==> volume(z) <= volume(y)
    ensures NonIncreasing([y] + s, volume)
  {
    var r := [y] + s;
    forall i, j | 0 <= i < j < |r| ensures volume(r[i]) >= volume(r[j]) {
      assert r[j] == s[j - 1];
      if i > 0 {
        assert r[i] == s[i - 1];
      } else {
        assert s[j - 1] in s;
      }
    }
  }

  lemma {:induction false} InsertKeepsOrder(x: string, sorted: seq<string>, volume: string -> real)
    requires NonIncreasing(sorted, volume)
    ensures NonIncreasing(InsertByVolume(x, sorted, volume), volume)
  {
    if |sorted| > 0 {
      HeadIsLargest(sorted, volume);
      if volume(sorted[0]) >= volume(x) {
        var tail := sorted[1..];
        TailNonIncreasing(sorted, volume);
        InsertKeepsOrder(x, tail, volume);
        var rest := InsertByVolume(x, tail, volume);
        InsertPermutes(x, tail, volume);
        forall z | z in rest ensures volume(z) <= volume(sorted[0]) {
          assert z in multiset(rest);
          if z != x {
            assert z in multiset(tail);
            assert z in sorted;
          }
        }
        ConsNonIncreasing(sorted[0], rest, volume);
      } else {
        ConsNonIncreasing(x, sorted, volume);
      }
    }
  }

  lemma {:induction false} SortByVolumeOrdered(xs: seq<string>, volume: string -> real)
    ensures NonIncreasing(SortByVolume(xs, volume), volume)
  {
    if |xs| > 0 {
      SortByVolumeOrdered(xs[..|xs| - 1], volume);
      InsertKeepsOrder(xs[|xs| - 1], SortByVolume(xs[..|xs| - 1], volume), volume);
    }
  }

  /** The elements of a given volume, in list order. */
  function WithVolume(xs: seq<string>, volume: string -> real, v: real): (r: seq<string>)
    ensures |r| <= |xs|
  {
    if |xs| == 0 then []
    else (if volume(xs[0]) == v then [xs[0]] else []) + WithVolume(xs[1..], volume, v)
  }

  /** The bodies of volume v in a list with y in front. */
  lemma {:induction false} WithVolumeCons(y: string, xs: seq<string>, volume: string -> real, v: real)
    ensures WithVolume([y] + xs, volume, v) == (if volume(y) == v then [y] else []) + WithVolume(xs, volume, v)
  {
    assert ([y] + xs)[0] == y && ([y] + xs)[1..] == xs;
  }

  lemma {:induction false} WithVolumeAppend(a: seq<string>, b: seq<string>, volume: string -> real, v: real)
    ensures WithVolume(a + b, volume, v) == WithVolume(a, volume, v) + WithVolume(b, volume, v)
  {
    if |a| == 0 {
      assert a + b == b;
    } else {
      var h := if volume(a[0]) == v then [a[0]] else [];
      assert a + b == [a[0]] + (a[1..] + b);
      WithVolumeCons(a[0], a[1..] + b, volume, v);
      WithVolumeAppend(a[1..], b, volume, v);
      assert a == [a[0]] + a[1..];
      WithVolumeCons(a[0], a[1..], volume, v);
      assert h + (WithVolume(a[1..], volume, v) + WithVolume(b, volume, v))
          == (h + WithVolume(a[1..], volume, v)) + WithVolume(b, volume, v);
    }
  }

  lemma {:induction false} WithVolumeNone(xs: seq<string>, volume: string -> real, v: real)
    requires forall i :: 0 <= i < |xs| ==> volume(xs[i]) < v
    ensures WithVolume(xs, volume, v) == []
  {
    if |xs| > 0 {
      assert forall i :: 0 <= i < |xs[1..]| ==> xs[1..][i] == xs[i + 1];
      WithVolumeNone(xs[1..], volume, v);
    }
  }

  /** Inserting in front of a list of smaller bodies. */
  lemma {:induction false} InsertStableFront(x: string, sorted: seq<string>, volume: string -> real, v: real)
    requires NonIncreasing(sorted, volume)
    requires |sorted| == 0 || volume(sorted[0]) < volume(x)
    ensures WithVolume([x] + sorted, volume, v) == WithVolume(sorted, volume, v) + (if volume(x) == v then [x] else [])
  {
    WithVolumeCons(x, sorted, volume, v);
    if volume(x) == v && |sorted| > 0 {
      HeadIsLargest(sorted, volume);
      assert forall i :: 0 <= i < |sorted| ==> sorted[i] in sorted;
      WithVolumeNone(sorted, volume, v);
    }
  }

  /** Inserting behind the first body: its contribution stays in front. */
  lemma {:induction false} InsertStableBehind(y: string, tail: seq<string>, inserted: seq<string>, volume: string -> real, v: real, hx: seq<string>)
    requires WithVolume(inserted, volume, v) == WithVolume(tail, volume, v) + hx
    ensures WithVolume([y] + inserted, volume, v) == WithVolume([y] + tail, volume, v) + hx
  {
    WithVolumeCons(y, inserted, volume, v);
    WithVolumeCons(y, tail, volume, v);
    var h := if volume(y) == v then [y] else [];
    assert h + (WithVolume(tail, volume, v) + hx) == (h + WithVolume(tail, volume, v)) + hx;
  }

  lemma {:induction false} InsertStable(x: string, sorted: seq<string>, volume: string -> real, v: real)
    requires NonIncreasing(sorted, volume)
    ensures WithVolume(InsertByVolume(x, sorted, volume), volume, v) ==
            WithVolume(sorted, volume, v) + (if volume(x) == v then [x] else [])
  {
    if |sorted| == 0 || volume(sorted[0]) < volume(x) {
      assert InsertByVolume(x, sorted, volume) == [x] + sorted;
      InsertStableFront(x, sorted, volume, v);
    } else {
      var tail := sorted[1..];
      var inserted := InsertByVolume(x, tail, volume);
      assert InsertByVolume(x, sorted, volume) == [sorted[0]] + inserted;
      TailNonIncreasing(sorted, volume);
      InsertStable(x, tail, volume, v);
      assert sorted == [sorted[0]] + tail;
      InsertStableBehind(sorted[0], tail, inserted, volume, v, if volume(x) == v then [x] else []);
    }
  }

  /** Bodies of equal volume keep their relative order. */
  lemma {:induction false} SortByVolumeStable(xs: seq<string>, volume: string -> real, v: real)
    ensures WithVolume(SortByVolume(xs, volume), volume, v) == WithVolume(xs, volume, v)
  {
    if |xs| > 0 {
      var init := xs[..|xs| - 1];
      var x := xs[|xs| - 1];
      assert WithVolume([x], volume, v) == if volume(x) == v then [x] else [] by {
        assert [x][1..] == [];
      }
      var sortedInit := SortByVolume(init, volume);
      assert SortByVolume(xs, volume) == InsertByVolume(x, sortedInit, volume);
      SortByVolumeStable(init, volume, v);
      SortByVolumeOrdered(init, volume);
      InsertStable(x, sortedInit, volume, v);
      assert xs == init + [x];
      WithVolumeAppend(init, [x], volume, v);
    }
  }

  datatype PriorityEntry = PriorityEntry(entityType: string, entity: string, number: int, listType: string)

  /** The priority list handed to the modeller: bodies by decreasing volume, numbered from 2. */
  method BodyVolumeKeys(solidBodies: seq<string>) returns (keys: seq<string>)
    ensures keys == BodyKeys(solidBodies)
  {
    keys := [];
    var i := 0;
    while i < |solidBodies|
      invariant 0 <= i <= |solidBodies|
      invariant keys == BodyKeys(solidBodies[..i])
    {
      assert solidBodies[..i + 1][..i] == solidBodies[..i];
      var b := solidBodies[i];
      if b != RegionName && b !in keys {
        keys := keys + [b];
      }
      i := i + 1;
    }
    assert solidBodies[..|solidBodies|] == solidBodies;
  }

  method PriorityList(solidBodies: seq<string>, volume: string -> real) returns (args: seq<PriorityEntry>)
    ensures var order := SortByVolume(BodyKeys(solidBodies), volume);
            |args| == |order| &&
            forall k :: 0 <= k < |args| ==> args[k] == PriorityEntry("Object", order[k], k + 2, "3D")
  {
    var keys := BodyVolumeKeys(solidBodies);
    var order := SortByVolume(keys, volume);
    SortedKeysSkipRegion(solidBodies, volume);
    var priorityNum := 2;
    args := [];
    var k := 0;
    while k < |order|
      invariant 0 <= k <= |order|
      invariant priorityNum == k + 2
      invariant |args| == k
      invariant forall j :: 0 <= j < k ==> args[j] == PriorityEntry("Object", order[j], j + 2, "3D")
    {
      assert order[k] in order;
      if order[k] != RegionName {
        args := args + [PriorityEntry("Object", order[k], priorityNum, "3D")];
        priorityNum := priorityNum + 1;
      }
      k := k + 1;
    }
  }

  lemma {:induction false} SortedKeysSkipRegion(solidBodies: seq<string>, volume: string -> real)
    ensures RegionName !in SortByVolume(BodyKeys(solidBodies), volume)
  {
    var keys := BodyKeys(solidBodies);
    var order := SortByVolume(keys, volume);
    SortByVolumePermutes(keys, volume);
    assert RegionName !in keys;
    assert multiset(order)[RegionName] == multiset(keys)[RegionName] == 0;
  }

  /** Every body but the region appears exactly once, by non-increasing volume, ties in body order. */
  lemma {:induction false} PriorityOrder(solidBodies: seq<string>, volume: string -> real, v: real)
    ensures var order := SortByVolume(BodyKeys(solidBodies), volume);
            (forall b :: b in order <==> b in solidBodies && b != RegionName)
            && Distinct(order)
            && NonIncreasing(order, volume)
            && WithVolume(order, volume, v) == WithVolume(BodyKeys(solidBodies), volume, v)
  {
    var keys := BodyKeys(solidBodies);
    var order := SortByVolume(keys, volume);
    SortByVolumeOrdered(keys, volume);
    SortByVolumeStable(keys, volume, v);
    SortByVolumePermutes(keys, volume);
    forall b ensures b in order <==> b in keys {
      assert b in order <==> b in multiset(order);
      assert b in keys <==> b in multiset(keys);
    }
    DistinctByMultiset(keys, order);
  }

  lemma {:induction false} DistinctByMultiset(xs: seq<string>, ys: seq<string>)
    requires Distinct(xs) && multiset(ys) == multiset(xs)
    ensures Distinct(ys)
  {
    forall x ensures multiset(xs)[x] <= 1 {
      CountAtMostOne(xs, x);
    }
    forall i, j | 0 <= i < j < |ys| ensures ys[i] != ys[j] {
      TwoCopies(ys, i, j);
    }
  }

  lemma {:induction false} TwoCopies(ys: seq<string>, i: nat, j: nat)
    requires i < j < |ys|
    ensures ys[i] == ys[j] ==> multiset(ys)[ys[i]] >= 2
  {
    assert ys == ys[..i] + [ys[i]] + ys[i + 1..j] + [ys[j]] + ys[j + 1..];
  }

  lemma {:induction false} CountAtMostOne(xs: seq<string>, x: string)
    requires Distinct(xs)
    ensures multiset(xs)[x] <= 1
  {
    if |xs| > 0 {
      assert xs == [xs[0]] + xs[1..];
      assert Distinct(xs[1..]) by {
        forall i, j | 0 <= i < j < |xs[1..]| ensures xs[1..][i] != xs[1..][j] {
          assert xs[1..][i] == xs[i + 1] && xs[1..][j] == xs[j + 1];
        }
      }
      CountAtMostOne(xs[1..], x);
      if xs[0] == x {
        assert x !in xs[1..] by {
          forall k | 0 <= k < |xs[1..]| ensures xs[1..][k] != x {
            assert xs[1..][k] == xs[k + 1];
          }
        }
      }
    }
  }

  // ---------------------------------------------------------------------------------
  // Mesh sizing

  /** (xy multiplier, z multiplier) for the chosen fidelity. */
  function MeshMultipliers(fidelity: string): (real, real)
  {
    if fidelity == "Coarse" then (0.5, 8.0)
    else if fidelity == "Medium" then (0.25, 4.0)
    else (0.1, 2.0)
  }

  /** A coarser fidelity never gives smaller elements; the default is the finest. */
  lemma {:induction false} MultipliersByFidelity(fidelity: string)
    ensures MeshMultipliers("Coarse").0 > MeshMultipliers("Medium").0 > MeshMultipliers("Fine").0
    ensures MeshMultipliers("Coarse").1 > MeshMultipliers("Medium").1 > MeshMultipliers("Fine").1
    ensures fidelity != "Coarse" && fidelity != "Medium" ==> MeshMultipliers(fidelity) == MeshMultipliers("Fine")
  {
  }

  /** The output of np.histogram: counts per bin and one more edge than bins. */
  datatype Histogram = Histogram(counts: seq<int>, edges: seq<real>)

  predicate HistogramShape(h: Histogram) { |h.counts| > 0 && |h.edges| == |h.counts| + 1 }

  predicate IsFirstMax(counts: seq<int>, k: nat)
  {
    k < |counts| && (forall j :: 0 <= j < |counts| ==> counts[j] <= counts[k])
    && forall j :: 0 <= j < k ==> counts[j] < counts[k]
  }

  /** np.argmax: the first index of a largest count. */
  function FirstArgMax(counts: seq<int>): (k: nat)
    requires |counts| > 0
    ensures IsFirstMax(counts, k)
  {
    if |counts| == 1 then 0
    else
      var k := FirstArgMax(counts[..|counts| - 1]);
      assert forall j :: 0 <= j < |counts| - 1 ==> counts[..|counts| - 1][j] == counts[j];
      if counts[|counts| - 1] > counts[k] then |counts| - 1 else k
  }

  lemma {:induction false} FirstMaxUnique(counts: seq<int>, k: nat, m: nat)
    requires IsFirstMax(counts, k) && IsFirstMax(counts, m)
    ensures k == m
  {
    assert counts[k] <= counts[m] && counts[m] <= counts[k];
  }

  predicate IsMin(xs: seq<real>, m: real) { m in xs && forall x :: x in xs ==> m <= x }

  /** Python's min(); an empty list raises. */
  function MinOf(xs: seq<real>): (r: Result<real>)
    ensures r.Ok? <==> |xs| > 0
    ensures r.Ok? ==> IsMin(xs, r.value)
    ensures r.Err? ==> r.message == EmptyMin
  {
    if |xs| == 0 then Err(EmptyMin)
    else if |xs| == 1 then Ok(xs[0])
    else
      var m := MinOf(xs[1..]).value;
      assert forall x :: x in xs ==> x == xs[0] || x in xs[1..];
      Ok(if xs[0] <= m then xs[0] else m)
  }

  datatype MeshSizes = MeshSizes(x: real, y: real, z: real, globalX: real, globalY: real, globalZ: real)

  /** The local element size along x or y: the multiplier times the sum of the modal bin's edges. */
  function ModalSize(h: Histogram, multiplier: real): real
    requires HistogramShape(h)
  {
    var k := FirstArgMax(h.counts);
    multiplier * (h.edges[k] + h.edges[k + 1])
  }

  function MeshSizing(fidelity: string, hx: Histogram, hy: Histogram, dimZ: seq<real>): (r: Result<MeshSizes>)
    requires HistogramShape(hx) && HistogramShape(hy)
    ensures r.Ok? <==> |dimZ| > 0
    ensures r.Err? ==> r.message == EmptyMin
  {
    var (mxy, mz) := MeshMultipliers(fidelity);
    match MinOf(dimZ)
    case Err(m) => Err(m)
    case Ok(minZ) =>
      var x := ModalSize(hx, mxy);
      var y := ModalSize(hy, mxy);
      var z := mz * minZ;
      Ok(MeshSizes(x, y, z, 4.0 * x, 4.0 * y, 4.0 * z))
  }

  /** Element sizes come from the first fullest bin and the thinnest layer; global sizes are four times larger. */
  lemma {:induction false} MeshSizingSpec(fidelity: string, hx: Histogram, hy: Histogram, dimZ: seq<real>, kx: nat, ky: nat, minZ: real)
    requires HistogramShape(hx) && HistogramShape(hy)
    requires IsFirstMax(hx.counts, kx) && IsFirstMax(hy.counts, ky) && IsMin(dimZ, minZ)
    ensures var r := MeshSizing(fidelity, hx, hy, dimZ);
            var (mxy, mz) := MeshMultipliers(fidelity);
            r.Ok?
            && r.value.x == mxy * (hx.edges[kx] + hx.edges[kx + 1])
            && r.value.y == mxy * (hy.edges[ky] + hy.edges[ky + 1])
            && r.value.z == mz * minZ
            && r.value.globalX == 4.0 * r.value.x
            && r.value.globalY == 4.0 * r.value.y
            && r.value.globalZ == 4.0 * r.value.z
  {
    FirstMaxUnique(hx.counts, kx, FirstArgMax(hx.counts));
    FirstMaxUnique(hy.counts, ky, FirstArgMax(hy.counts));
    var m := MinOf(dimZ).value;
    assert m <= minZ && minZ <= m;
  }

  /** Python's model_objects.remove('Region') raises when there is no region. */
  function PrimitiveObjects(modelObjects: seq<string>, pcbLayers: seq<string>): (r: Result<seq<string>>)
    ensures r.Ok? <==> RegionName in modelObjects
    ensures r.Err? ==> r.message == NotInList
    ensures r.Ok? ==> r.value == Without(RemoveIfPresent(modelObjects, RegionName), pcbLayers)
  {
    if RegionName in modelObjects then Ok(Without(RemoveIfPresent(modelObjects, RegionName), pcbLayers))
    else Err(NotInList)
  }

  /** A mesh-level operation maps each listed object to the same level. */
  method MeshLevels(objects: seq<string>, level: int) returns (levels: map<string, int>)
    ensures levels.Keys == set o | o in objects
    ensures forall o :: o in levels ==> levels[o] == level
  {
    levels := map[];
    var i := 0;
    while i < |objects|
      invariant 0 <= i <= |objects|
      invariant levels.Keys == set o | o in objects[..i]
      invariant forall o :: o in levels ==> levels[o] == level
    {
      assert objects[..i + 1] == objects[..i] + [objects[i]];
      levels := levels[objects[i] := level];
      i := i + 1;
    }
    assert objects[..|objects|] == objects;
  }

  // ---------------------------------------------------------------------------------
  // Boundary conditions, one row at a time

  const CeramicSurface := "Ceramic-surface"
  const PointPrefix := "point_"

  datatype BcAction =
    | CreateSource(block: string, power: string)
    | SetMaterial(block: string, material: string, surface: string)
    | CreateNetwork(block: string, pcb: string, power: string, rjb: string, rjc: string)
    | DisableSolveInside(block: string)
    | ReportError(message: string)
    | CreateMonitorPoint(block: string, point: string)

  /** Rows kept in the boundary-condition frame. */
  predicate GetsBc(r: BcRow) { r.included == "YES" && r.instanceName != NoRefDes }

  predicate KnownBcType(t: string) { t == "block" || t == "network" || t == "hollow" }

  function MonitorActions(r: BcRow, block: string): seq<BcAction>
  {
    if r.monitorPoint == "YES" then [CreateMonitorPoint(block, PointPrefix + block)] else []
  }

  function MaterialActions(r: BcRow, block: string): seq<BcAction>
  {
    if r.material != "" then [SetMaterial(block, r.material, CeramicSurface)] else []
  }

  /** The type-dependent actions, given how a block row's power test comes out. */
  function BcPart(r: BcRow, pcb: string, block: string, blockSource: bool): seq<BcAction>
  {
    if r.bcType == "block" then
      (if blockSource then [CreateSource(block, r.power + "W")] else []) + MaterialActions(r, block)
    else if r.bcType == "network" then [CreateNetwork(block, pcb, r.power + "W", r.rjb, r.rjc)]
    else if r.bcType == "hollow" then [CreateSource(block, r.power + "W"), DisableSolveInside(block)]
    else [ReportError(BadBlockBc)]
  }

  /**
   * The row's actions as the page performs them: the power column holds a string, so its
   * comparison with the integer 0 is always unequal and a block always gets a source.
   */
  function RowActionsAsWritten(r: BcRow, pcb: string): seq<BcAction>
  {
    var block := NameCleanup(r.instanceName);
    BcPart(r, pcb, block, true) + MonitorActions(r, block)
  }

  lemma {:induction false} ZeroReadsAsZero()
    ensures ParseDecimal("0") == Some(0.0)
  {
    SplitJoin(["0"], '.');
    assert Join(["0"], '.') == "0";
  }

  /** A block whose power reads as zero gets a source anyway. */
  lemma {:induction false} ZeroPowerBlockGetsSource(r: BcRow, pcb: string)
    requires r.bcType == "block" && r.power == "0"
    ensures ParseDecimal(r.power) == Some(0.0)
    ensures CreateSource(NameCleanup(r.instanceName), "0W") in RowActionsAsWritten(r, pcb)
  {
    ZeroReadsAsZero();
    assert RowActionsAsWritten(r, pcb)[0] == CreateSource(NameCleanup(r.instanceName), "0W");
  }

  predicate ZeroPower(power: string) { ParseDecimal(power) == Some(0.0) }

  /** The row's actions with the power test made numeric, as the comparison intends. */
  function RowActions(r: BcRow, pcb: string): seq<BcAction>
  {
    var block := NameCleanup(r.instanceName);
    BcPart(r, pcb, block, !ZeroPower(r.power)) + MonitorActions(r, block)
  }

  /** Which actions a row gets, for either outcome of the block power test. */
  lemma {:induction false} ActionsSpec(r: BcRow, pcb: string, blockSource: bool)
    ensures var b := NameCleanup(r.instanceName);
            var acts := BcPart(r, pcb, b, blockSource) + MonitorActions(r, b);
            var t := r.bcType;
            (CreateSource(b, r.power + "W") in acts <==> (t == "block" && blockSource) || t == "hollow")
            && (SetMaterial(b, r.material, CeramicSurface) in acts <==> t == "block" && r.material != "")
            && (CreateNetwork(b, pcb, r.power + "W", r.rjb, r.rjc) in acts <==> t == "network")
            && (DisableSolveInside(b) in acts <==> t == "hollow")
            && (ReportError(BadBlockBc) in acts <==> !KnownBcType(t))
            && (CreateMonitorPoint(b, PointPrefix + b) in acts <==> r.monitorPoint == "YES")
            && (forall a :: a in acts ==> a.ReportError? || a.block == b)
  {
  }

  /** Which actions a row gets as the page performs them: every block and every hollow
      block gets a source, whatever its power. */
  lemma {:induction false} RowActionsSpec(r: BcRow, pcb: string)
    ensures var acts := RowActionsAsWritten(r, pcb);
            var b := NameCleanup(r.instanceName);
            var t := r.bcType;
            (CreateSource(b, r.power + "W") in acts <==> t == "block" || t == "hollow")
            && (SetMaterial(b, r.material, CeramicSurface) in acts <==> t == "block" && r.material != "")
            && (CreateNetwork(b, pcb, r.power + "W", r.rjb, r.rjc) in acts <==> t == "network")
            && (DisableSolveInside(b) in acts <==> t == "hollow")
            && (ReportError(BadBlockBc) in acts <==> !KnownBcType(t))
            && (CreateMonitorPoint(b, PointPrefix + b) in acts <==> r.monitorPoint == "YES")
            && (forall a :: a in acts ==> a.ReportError? || a.block == b)
  {
    ActionsSpec(r, pcb, true);
  }

  /** With the numeric test, only a block whose power does not read as zero gets a source. */
  lemma {:induction false} RowActionsIntendedSpec(r: BcRow, pcb: string)
    ensures var acts := RowActions(r, pcb);
            var b := NameCleanup(r.instanceName);
            var t := r.bcType;
            (CreateSource(b, r.power + "W") in acts <==> (t == "block" && !ZeroPower(r.power)) || t == "hollow")
            && (SetMaterial(b, r.material, CeramicSurface) in acts <==> t == "block" && r.material != "")
            && (CreateNetwork(b, pcb, r.power + "W", r.rjb, r.rjc) in acts <==> t == "network")
            && (DisableSolveInside(b) in acts <==> t == "hollow")
            && (ReportError(BadBlockBc) in acts <==> !KnownBcType(t))
            && (CreateMonitorPoint(b, PointPrefix + b) in acts <==> r.monitorPoint == "YES")
  {
    ActionsSpec(r, pcb, !ZeroPower(r.power));
  }

  /** The two versions differ only for a block whose power reads as zero. */
  lemma {:induction false} RowActionsDiffer(r: BcRow, pcb: string)
    ensures RowActions(r, pcb) != RowActionsAsWritten(r, pcb) <==> r.bcType == "block" && ZeroPower(r.power)
  {
    if r.bcType == "block" && ZeroPower(r.power) {
      var b := NameCleanup(r.instanceName);
      ActionsSpec(r, pcb, true);
      ActionsSpec(r, pcb, false);
      assert CreateSource(b, r.power + "W") in RowActionsAsWritten(r, pcb);
    }
  }

  /** A zero-power block gets no source under the numeric test. */
  lemma {:induction false} ZeroPowerBlockNoSource(r: BcRow, pcb: string)
    requires r.bcType == "block" && r.power == "0"
    ensures CreateSource(NameCleanup(r.instanceName), "0W") !in RowActions(r, pcb)
  {
    ZeroReadsAsZero();
  }

  /** The actions for the whole frame: the rows that get a condition, in row order. */
  function Dispatch(rows: seq<BcRow>, pcb: string): seq<BcAction>
  {
    if |rows| == 0 then []
    else
      var r := rows[|rows| - 1];
      Dispatch(rows[..|rows| - 1], pcb) + (if GetsBc(r) then RowActionsAsWritten(r, pcb) else [])
  }

  /** A row with an unknown type reports its error and the rows after it are still handled. */
  lemma {:induction false} DispatchAppend(a: seq<BcRow>, b: seq<BcRow>, pcb: string)
    ensures Dispatch(a + b, pcb) == Dispatch(a, pcb) + Dispatch(b, pcb)
    decreases |b|
  {
    if |b| == 0 {
      assert a + b == a;
    } else {
      assert (a + b)[..|a + b| - 1] == a + b[..|b| - 1];
      DispatchAppend(a, b[..|b| - 1], pcb);
    }
  }

  /** Every action concerns a row that is included and has a reference designator. */
  lemma {:induction false} DispatchOnlySelected(rows: seq<BcRow>, pcb: string, a: BcAction)
    requires a in Dispatch(rows, pcb)
    ensures exists i :: 0 <= i < |rows| && GetsBc(rows[i]) && a in RowActionsAsWritten(rows[i], pcb)
  {
    var init := rows[..|rows| - 1];
    if a in Dispatch(init, pcb) {
      DispatchOnlySelected(init, pcb, a);
      var i :| 0 <= i < |init| && GetsBc(init[i]) && a in RowActionsAsWritten(init[i], pcb);
      assert rows[i] == init[i];
    } else {
      assert GetsBc(rows[|rows| - 1]) && a in RowActionsAsWritten(rows[|rows| - 1], pcb);
    }
  }

  /** The number of selected rows whose type is not block, network or hollow. */
  function BadTypeCount(rows: seq<BcRow>): nat
  {
    if |rows| == 0 then 0
    else
      var r := rows[|rows| - 1];
      BadTypeCount(rows[..|rows| - 1]) + (if GetsBc(r) && !KnownBcType(r.bcType) then 1 else 0)
  }

  function ErrorCount(acts: seq<BcAction>): nat
  {
    if |acts| == 0 then 0 else (if acts[0].ReportError? then 1 else 0) + ErrorCount(acts[1..])
  }

  lemma {:induction false} ErrorCountAppend(a: seq<BcAction>, b: seq<BcAction>)
    ensures ErrorCount(a + b) == ErrorCount(a) + ErrorCount(b)
  {
    if |a| == 0 {
      assert a + b == b;
    } else {
      assert (a + b)[1..] == a[1..] + b;
      ErrorCountAppend(a[1..], b);
    }
  }

  lemma {:induction false} ErrorCountOne(a: BcAction)
    ensures ErrorCount([a]) == if a.ReportError? then 1 else 0
  {
    assert [a][1..] == [];
  }

  /** A row's actions hold one error when its type is unknown and none otherwise. */
  lemma {:induction false} RowErrors(r: BcRow, pcb: string)
    ensures ErrorCount(RowActionsAsWritten(r, pcb)) == if KnownBcType(r.bcType) then 0 else 1
  {
    var b := NameCleanup(r.instanceName);
    var mon := MonitorActions(r, b);
    var mat := MaterialActions(r, b);
    if mon != [] { ErrorCountOne(mon[0]); }
    if mat != [] { ErrorCountOne(mat[0]); }
    var src: seq<BcAction> := [CreateSource(b, r.power + "W")];
    ErrorCountOne(CreateNetwork(b, pcb, r.power + "W", r.rjb, r.rjc));
    ErrorCountOne(ReportError(BadBlockBc));
    ErrorCountOne(DisableSolveInside(b));
    ErrorCountOne(CreateSource(b, r.power + "W"));
    ErrorCountAppend([CreateSource(b, r.power + "W")], [DisableSolveInside(b)]);
    ErrorCountAppend(src, mat);
    ErrorCountAppend(BcPart(r, pcb, b, true), mon);
  }

  /** One error per selected row of an unknown type, and no other errors. */
  lemma {:induction false} DispatchErrors(rows: seq<BcRow>, pcb: string)
    ensures ErrorCount(Dispatch(rows, pcb)) == BadTypeCount(rows)
  {
    if |rows| > 0 {
      var r := rows[|rows| - 1];
      DispatchErrors(rows[..|rows| - 1], pcb);
      ErrorCountAppend(Dispatch(rows[..|rows| - 1], pcb), if GetsBc(r) then RowActionsAsWritten(r, pcb) else []);
      RowErrors(r, pcb);
    }
  }

  // ---------------------------------------------------------------------------------
  // Monitor points at the board side of every component

  /** The keys of points_dict: one point per named row, at its first occurrence. */
  function PointKeys(rows: seq<BcRow>, allPoints: bool): (keys: seq<string>)
    ensures Distinct(keys)
    ensures forall p :: p in keys <==>
              allPoints && exists i :: 0 <= i < |rows| && rows[i].instanceName != NoRefDes
                                      && p == PointPrefix + NameCleanup(rows[i].instanceName)
  {
    if |rows| == 0 then []
    else
      var init := rows[..|rows| - 1];
      var keys := PointKeys(init, allPoints);
      var r := rows[|rows| - 1];
      var p := PointPrefix + NameCleanup(r.instanceName);
      assert forall i :: 0 <= i < |init| ==> init[i] == rows[i];
      if allPoints && r.instanceName != NoRefDes && p !in keys then keys + [p] else keys
  }

  method PointNames(rows: seq<BcRow>, allPoints: bool) returns (points: seq<string>)
    ensures points == PointKeys(rows, allPoints)
  {
    points := [];
    var i := 0;
    while i < |rows|
      invariant 0 <= i <= |rows|
      invariant points == PointKeys(rows[..i], allPoints)
    {
      assert rows[..i + 1][..i] == rows[..i];
      if rows[i].instanceName != NoRefDes {
        var pointName := PointPrefix + NameCleanup(rows[i].instanceName);
        if allPoints && pointName !in points {
          points := points + [pointName];
        }
      }
      i := i + 1;
    }
    assert rows[..|rows|] == rows;
  }

  /** The points still to be created: those the design does not already monitor, in dict order. */
  function MissingMonitors(points: seq<string>, existing: seq<string>): (r: seq<string>)
    ensures Distinct(points) ==> Distinct(r)
    ensures forall p :: p in r <==> p in points && p !in existing
  {
    if |points| == 0 then []
    else
      assert forall k :: 0 <= k < |points[1..]| ==> points[1..][k] == points[k + 1];
      (if points[0] in existing then [] else [points[0]]) + MissingMonitors(points[1..], existing)
  }

  // ---------------------------------------------------------------------------------
  // Opening boundary conditions

  const ZeroSpeed := "0m_per_sec"
  const AmbientPressure := "AmbientPressure"
  const AmbientTemp := "AmbientTemp"

  datatype PropValue = Text(text: string) | FaceList(ids: seq<int>)

  /** The props dict handed to the boundary object. */
  type Props = map<string, PropValue>

  function OpeningProps(faceId: int, flowType: string, xvel: string, yvel: string, zvel: string,
                        pressure: string, temperature: string): Props
  {
    var props := map["Faces" := FaceList([faceId])];
    if flowType == "velocity" then
      props["Inlet Type" := Text("Velocity")]["Static Pressure" := Text(pressure)]
           ["X Velocity" := Text(xvel)]["Y Velocity" := Text(yvel)]["Z Velocity" := Text(zvel)]
           ["Temperature" := Text(temperature)]
    else
      props["Inlet Type" := Text("Pressure")]["Total Pressure" := Text(pressure)]["Temperature" := Text(temperature)]
  }

  /** A velocity opening carries the three velocities and a static pressure; any other type a total pressure only. */
  lemma {:induction false} OpeningPropsSpec(faceId: int, flowType: string, xvel: string, yvel: string, zvel: string,
                         pressure: string, temperature: string)
    ensures var p := OpeningProps(faceId, flowType, xvel, yvel, zvel, pressure, temperature);
            var velocity := flowType == "velocity";
            p.Keys == (if velocity then {"Faces", "Inlet Type", "Static Pressure", "X Velocity", "Y Velocity", "Z Velocity", "Temperature"}
                       else {"Faces", "Inlet Type", "Total Pressure", "Temperature"})
            && p["Faces"] == FaceList([faceId])
            && p["Temperature"] == Text(temperature)
            && p["Inlet Type"] == Text(if velocity then "Velocity" else "Pressure")
            && (velocity ==> p["Static Pressure"] == Text(pressure) && p["X Velocity"] == Text(xvel)
                             && p["Y Velocity"] == Text(yvel) && p["Z Velocity"] == Text(zvel))
            && (!velocity ==> p["Total Pressure"] == Text(pressure))
  {
  }

  datatype Opening = Opening(name: string, props: Props)

  // ---------------------------------------------------------------------------------
  // Forced convection: flow direction to region padding, inlet and outlet

  datatype Axis = X | Y | Z

  /** A face of the region box: the low ("bottom") or high ("top") face along an axis. */
  datatype RegionFace = RegionFace(axis: Axis, top: bool)

  datatype Direction = Direction(axis: Axis, positive: bool)

  /** The direction choices; anything not listed takes the last branch, -Z. */
  function FlowDirection(velDir: string): Direction
  {
    if velDir == "+X" then Direction(X, true)
    else if velDir == "-X" then Direction(X, false)
    else if velDir == "+Y" then Direction(Y, true)
    else if velDir == "-Y" then Direction(Y, false)
    else if velDir == "+Z" then Direction(Z, true)
    else Direction(Z, false)
  }

  function AxisSlot(a: Axis): nat
  {
    match a
    case X => 0
    case Y => 1
    case Z => 2
  }

  function VelocityKey(a: Axis): string
  {
    match a
    case X => "X Velocity"
    case Y => "Y Velocity"
    case Z => "Z Velocity"
  }

  /** The speed goes on the flow axis; the other components keep their zero default. */
  function VelocityFor(component: Axis, flowAxis: Axis, vel: string): string
  {
    if component == flowAxis then vel + "m_per_sec" else ZeroSpeed
  }

  datatype ForcedPlan = ForcedPlan(padding: seq<int>, inlet: Opening, outlet: Opening)

  function InletOutlet(inletFace: int, outletFace: int, axis: Axis, speed: string, temperature: string): (Opening, Opening)
  {
    var xv := if axis == X then speed else ZeroSpeed;
    var yv := if axis == Y then speed else ZeroSpeed;
    var zv := if axis == Z then speed else ZeroSpeed;
    (Opening("inlet", OpeningProps(inletFace, "velocity", xv, yv, zv, AmbientPressure, temperature)),
     Opening("outlet", OpeningProps(outletFace, "pressure", ZeroSpeed, ZeroSpeed, ZeroSpeed, AmbientPressure, AmbientTemp)))
  }

  /** The six branches of the forced-convection set-up; faceId gives the region's face ids. */
  function ForcedConvection(velDir: string, vel: string, airTemp: string, faceId: RegionFace -> int): ForcedPlan
  {
    var speed := vel + "m_per_sec";
    var temp := airTemp + "cel";
    if velDir == "+X" then
      var (i, o) := InletOutlet(faceId(RegionFace(X, false)), faceId(RegionFace(X, true)), X, speed, temp);
      ForcedPlan([100, 100, 50, 50, 50, 50], i, o)
    else if velDir == "-X" then
      var (i, o) := InletOutlet(faceId(RegionFace(X, true)), faceId(RegionFace(X, false)), X, speed, temp);
      ForcedPlan([100, 100, 50, 50, 50, 50], i, o)
    else if velDir == "+Y" then
      var (i, o) := InletOutlet(faceId(RegionFace(Y, false)), faceId(RegionFace(Y, true)), Y, speed, temp);
      ForcedPlan([50, 50, 100, 100, 50, 50], i, o)
    else if velDir == "-Y" then
      var (i, o) := InletOutlet(faceId(RegionFace(Y, true)), faceId(RegionFace(Y, false)), Y, speed, temp);
      ForcedPlan([50, 50, 100, 100, 50, 50], i, o)
    else if velDir == "+Z" then
      var (i, o) := InletOutlet(faceId(RegionFace(Z, false)), faceId(RegionFace(Z, true)), Z, speed, temp);
      ForcedPlan([50, 50, 50, 50, 100, 100], i, o)
    else
      var (i, o) := InletOutlet(faceId(RegionFace(Z, true)), faceId(RegionFace(Z, false)), Z, speed, temp);
      ForcedPlan([50, 50, 50, 50, 100, 100], i, o)
  }

  /**
   * Air enters through the low face of the flow axis for a positive direction and through the
   * high face for a negative one, leaves through the opposite face, and moves only along that
   * axis; the region is padded twice as much along that axis.
   */
  lemma {:induction false} ForcedConvectionSpec(velDir: string, vel: string, airTemp: string, faceId: RegionFace -> int, k: nat)
    requires k < 6
    ensures var d := FlowDirection(velDir);
            var plan := ForcedConvection(velDir, vel, airTemp, faceId);
            plan.inlet.name == "inlet" && plan.outlet.name == "outlet"
            && plan.inlet.props == OpeningProps(faceId(RegionFace(d.axis, !d.positive)), "velocity",
                                                 VelocityFor(X, d.axis, vel), VelocityFor(Y, d.axis, vel),
                                                 VelocityFor(Z, d.axis, vel), AmbientPressure, airTemp + "cel")
            && plan.outlet.props == OpeningProps(faceId(RegionFace(d.axis, d.positive)), "pressure",
                                                  ZeroSpeed, ZeroSpeed, ZeroSpeed, AmbientPressure, AmbientTemp)
            && |plan.padding| == 6
            && plan.padding[k] == if k / 2 == AxisSlot(d.axis) then 100 else 50
  {
  }

  // ---------------------------------------------------------------------------------
  // Natural convection: gravity direction to gravity index, padding and initial velocity

  const Drift := "0.00098m_per_sec"
  const NegativeDrift := "-0.00098m_per_sec"

  datatype GravitySetting = GravitySetting(gravityDir: nat, ambientTemp: string, padding: seq<int>,
                                          xVelocity: string, yVelocity: string, zVelocity: string)

  /** The index of a case-folded gravity direction; anything unlisted takes the last branch. */
  function GravityIndex(g: string): (n: nat)
    ensures n <= 5
  {
    if g == "-x" then 0
    else if g == "-y" then 1
    else if g == "-z" then 2
    else if g == "+x" then 3
    else if g == "+y" then 4
    else 5
  }

  /** The settings of each branch, by gravity index; every branch hands `ambient` to the
      Icepak settings together with its gravity index. */
  function GravityBranch(n: nat, ambient: string): GravitySetting
    requires n <= 5
  {
    if n == 0 then GravitySetting(0, ambient, [250, 50, 50, 50, 200, 200], Drift, ZeroSpeed, ZeroSpeed)
    else if n == 1 then GravitySetting(1, ambient, [50, 50, 250, 50, 200, 200], ZeroSpeed, Drift, ZeroSpeed)
    else if n == 2 then GravitySetting(2, ambient, [50, 50, 50, 50, 250, 50], ZeroSpeed, ZeroSpeed, Drift)
    else if n == 3 then GravitySetting(3, ambient, [50, 250, 50, 50, 200, 200], NegativeDrift, ZeroSpeed, ZeroSpeed)
    else if n == 4 then GravitySetting(4, ambient, [50, 50, 50, 250, 200, 200], ZeroSpeed, NegativeDrift, ZeroSpeed)
    else GravitySetting(5, ambient, [50, 50, 50, 50, 50, 250], ZeroSpeed, ZeroSpeed, NegativeDrift)
  }

  /** The natural-convection set-up compares the direction after case folding and gives the
      air temperature of the page, in degrees Celsius, as the ambient temperature. */
  function NaturalGravity(gravityDirection: string, airTemp: string): GravitySetting
  {
    GravityBranch(GravityIndex(Lower(gravityDirection)), airTemp + "cel")
  }

  function AxisOfSlot(n: nat): Axis
  {
    if n % 3 == 0 then X else if n % 3 == 1 then Y else Z
  }

  function Velocity(s: GravitySetting, a: Axis): string
  {
    match a
    case X => s.xVelocity
    case Y => s.yVelocity
    case Z => s.zVelocity
  }

  /**
   * Gravity index n acts along axis n mod 3, towards the negative end for n < 3; the initial
   * velocity points against gravity on that axis only, and the region gets its widest padding
   * on the face gravity points to.
   */
  lemma {:induction false} GravityBranchSpec(n: nat, ambient: string, a: Axis, k: nat)
    requires n <= 5 && k < 6
    ensures var s := GravityBranch(n, ambient);
            s.gravityDir == n && s.ambientTemp == ambient && |s.padding| == 6
            && Velocity(s, a) == (if a != AxisOfSlot(n) then ZeroSpeed else if n < 3 then Drift else NegativeDrift)
            && s.padding[k] == (if k == 2 * (n % 3) + n / 3 then 250 else if k >= 4 && n % 3 != 2 then 200 else 50)
  {
    if n == 0 {
    } else if n == 1 {
    } else if n == 2 {
    } else if n == 3 {
    } else if n == 4 {
    } else {
    }
  }

  /** Whatever the direction, the natural set-up hands the page's air temperature with the
      `cel` unit to the Icepak settings, and the direction picks its branch after case folding. */
  lemma {:induction false} NaturalGravitySpec(gravityDirection: string, airTemp: string)
    ensures NaturalGravity(gravityDirection, airTemp).ambientTemp == airTemp + "cel"
    ensures NaturalGravity(gravityDirection, airTemp).gravityDir == GravityIndex(Lower(gravityDirection))
    ensures NaturalGravity(gravityDirection, airTemp) == NaturalGravity(Lower(gravityDirection), airTemp)
  {
    var n := GravityIndex(Lower(gravityDirection));
    GravityBranchSpec(n, airTemp + "cel", X, 0);
    LowerIdempotent(gravityDirection);
  }

  /** Lower-casing a sign and an upper-case axis letter. */
  lemma {:induction false} LowerDirection(sign: char, axis: char)
    requires 'A' <= axis <= 'Z' && !('A' <= sign <= 'Z')
    ensures Lower([sign, axis]) == [sign, (axis as int + 32) as char]
  {
  }

  /** The choices offered on the page land on their own index; "+Z" takes the last branch, 5. */
  lemma {:induction false} NaturalGravityChoices(airTemp: string)
    ensures NaturalGravity("-X", airTemp).gravityDir == 0 && NaturalGravity("-Y", airTemp).gravityDir == 1
    ensures NaturalGravity("-Z", airTemp).gravityDir == 2 && NaturalGravity("+X", airTemp).gravityDir == 3
    ensures NaturalGravity("+Y", airTemp).gravityDir == 4 && NaturalGravity("+Z", airTemp).gravityDir == 5
  {
    GravityChoice('-', 'X', 0, airTemp);
    GravityChoice('-', 'Y', 1, airTemp);
    GravityChoice('-', 'Z', 2, airTemp);
    GravityChoice('+', 'X', 3, airTemp);
    GravityChoice('+', 'Y', 4, airTemp);
    GravityChoice('+', 'Z', 5, airTemp);
  }

  lemma {:induction false} GravityChoice(sign: char, axis: char, n: nat, airTemp: string)
    requires sign == '-' || sign == '+'
    requires 'X' <= axis <= 'Z'
    requires n == (if sign == '-' then 0 else 3) + (axis as int - 'X' as int)
    ensures NaturalGravity([sign, axis], airTemp).gravityDir == n
  {
    LowerDirection(sign, axis);
    var g := [sign, (axis as int + 32) as char];
    assert g == "-x" <==> sign == '-' && axis == 'X';
    assert g == "-y" <==> sign == '-' && axis == 'Y';
    assert g == "-z" <==> sign == '-' && axis == 'Z';
    assert g == "+x" <==> sign == '+' && axis == 'X';
    assert g == "+y" <==> sign == '+' && axis == 'Y';
  }

  /** One pressure outlet per region face, named after the face id. */
  function NaturalOutlets(faces: seq<nat>): (os: seq<Opening>)
    ensures |os| == |faces|
  {
    if |faces| == 0 then []
    else
      [Opening("outlet_" + NatToString(faces[0]),
               OpeningProps(faces[0], "pressure", ZeroSpeed, ZeroSpeed, ZeroSpeed, AmbientPressure, AmbientTemp))]
      + NaturalOutlets(faces[1..])
  }

  /** Distinct faces give distinct outlet names, each pointing back at its own face. */
  lemma {:induction false} NaturalOutletsSpec(faces: seq<nat>, i: nat, j: nat)
    requires i < |faces| && j < |faces|
    ensures "Faces" in NaturalOutlets(faces)[i].props
    ensures NaturalOutlets(faces)[i].props["Faces"] == FaceList([faces[i]])
    ensures NaturalOutlets(faces)[i].name == NaturalOutlets(faces)[j].name ==> faces[i] == faces[j]
  {
    OutletAt(faces, i);
    OutletAt(faces, j);
    OpeningPropsSpec(faces[i], "pressure", ZeroSpeed, ZeroSpeed, ZeroSpeed, AmbientPressure, AmbientTemp);
    var ni := NaturalOutlets(faces)[i].name;
    var nj := NaturalOutlets(faces)[j].name;
    if ni == nj {
      assert ni[7..] == NatToString(faces[i]) && nj[7..] == NatToString(faces[j]);
      NatToStringInjective(faces[i], faces[j]);
    }
  }

  lemma {:induction false} OutletAt(faces: seq<nat>, i: nat)
    requires i < |faces|
    ensures NaturalOutlets(faces)[i] ==
            Opening("outlet_" + NatToString(faces[i]),
                    OpeningProps(faces[i], "pressure", ZeroSpeed, ZeroSpeed, ZeroSpeed, AmbientPressure, AmbientTemp))
  {
    if i > 0 {
      OutletAt(faces[1..], i - 1);
    }
  }

  // ---------------------------------------------------------------------------------
  // Solver set-up

  datatype FlowModel = Laminar | Turbulent(equation: string)

  /** Flow regime and turbulence model are compared after case folding. */
  function ChooseFlowModel(flowRegime: string, turbModel: string): FlowModel
  {
    if Lower(flowRegime) == "laminar" then Laminar
    else if Lower(turbModel) == "zeroequation" then Turbulent("ZeroEquation")
    else Turbulent("EnhancedRealizableTwoEquation")
  }

  /** The choice ignores the case of both selections: folding them first changes nothing. */
  lemma {:induction false} ChooseFlowModelIgnoresCase(flowRegime: string, turbModel: string)
    ensures ChooseFlowModel(flowRegime, turbModel) == ChooseFlowModel(Lower(flowRegime), Lower(turbModel))
  {
    LowerIdempotent(flowRegime);
    LowerIdempotent(turbModel);
  }

  /** The page asks for a turbulent set-up with the default zero-equation model. */
  lemma {:induction false} PageFlowModel()
    ensures ChooseFlowModel("Turbulent", "ZeroEquation") == Turbulent("ZeroEquation")
  {
    TurbulentIsNotLaminar();
    ZeroEquationLower();
  }

  lemma {:induction false} TurbulentIsNotLaminar()
    ensures Lower("Turbulent") != "laminar"
  {
    assert |Lower("Turbulent")| == 9;
  }

  lemma {:induction false} ZeroEquationLower()
    ensures Lower("ZeroEquation") == "zeroequation"
  {
    LowerIs("ZeroEquation", "zeroequation");
  }

  /** Lower(s) is t when t is s with each upper-case letter shifted down. */
  lemma {:induction false} LowerIs(s: string, t: string)
    requires |s| == |t|
    requires forall k :: 0 <= k < |s| ==> t[k] == if 'A' <= s[k] <= 'Z' then (s[k] as int + 32) as char else s[k]
    ensures Lower(s) == t
  {
  }

  datatype SolverFlags = SolverFlags(
    includeGravity: bool,
    radiationEnabled: bool,
    radiationModel: string,
    pressureRelaxation: string,
    momentumRelaxation: string,
    sequentialSolve: bool,
    maxIterations: int)

  const ForcedFlags := SolverFlags(false, false, "Off", "0.3", "0.7", true, 300)
  const NaturalFlags := SolverFlags(true, true, "Discrete Ordinates Model", "0.7", "0.3", false, 500)

  datatype SetupPlan = SetupPlan(name: string, flow: FlowModel, flags: SolverFlags)

  /** Forced and natural convection create their own set-up; any other type creates none. */
  function ConvectionSetup(convType: string): Option<SetupPlan>
  {
    if convType == "Forced" then Some(SetupPlan("forced_conv_setup", ChooseFlowModel("Turbulent", "ZeroEquation"), ForcedFlags))
    else if convType == "Natural" then Some(SetupPlan("natural_conv_setup", ChooseFlowModel("Turbulent", "ZeroEquation"), NaturalFlags))
    else None
  }

  /** Gravity and radiation are on exactly for natural convection, which also iterates longer. */
  lemma {:induction false} ConvectionSetupSpec(convType: string)
    ensures var s := ConvectionSetup(convType);
            (s.Some? <==> convType == "Forced" || convType == "Natural")
            && (s.Some? ==> s.value.flow == Turbulent("ZeroEquation")
                            && s.value.flags.includeGravity == (convType == "Natural")
                            && s.value.flags.radiationEnabled == (convType == "Natural")
                            && s.value.flags.sequentialSolve == (convType == "Forced")
                            && (s.value.flags.maxIterations > 300 <==> convType == "Natural"))
  {
    PageFlowModel();
  }
}
