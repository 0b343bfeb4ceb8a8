/**
 * The bookkeeping of the post-processing page: boundary conditions grouped by type, the
 * objects each boundary is assigned to, the lists of solid and hollow blocks, the
 * components touching the board, the quantity and expression names handed to the
 * reports, and the renaming of the exported report columns.
 */
module Postprocessing {
  import opened Results
  import opened Text
  import opened Lists

  const RegionName := "Region"
  const SolidBlock := "Solid Block"
  const HollowBlock := "Hollow Block"
  const NetworkType := "Network"
  const NoNetworkMessage := "No network blocks in the model!"

  /** A thermal boundary condition of the design: its name and its Type property. */
  datatype Bc = Bc(name: string, bcType: string)

  // ---------------------------------------------------------------------------------
  // Boundary-condition names grouped by type

  /** A dict of lists: the types in insertion order and the list under each type. */
  datatype TypeGroups = TypeGroups(types: seq<string>, lists: map<string, seq<string>>)

  predicate WellKeyed(g: TypeGroups)
  {
    Distinct(g.types) && g.lists.Keys == set t | t in g.types
  }

  function AddToGroup(g: TypeGroups, b: Bc): TypeGroups
  {
    if b.bcType in g.lists then TypeGroups(g.types, g.lists[b.bcType := g.lists[b.bcType] + [b.name]])
    else TypeGroups(g.types + [b.bcType], g.lists[b.bcType := [b.name]])
  }

  function Grouped(bcs: seq<Bc>): TypeGroups
  {
    if |bcs| == 0 then TypeGroups([], map[])
    else AddToGroup(Grouped(bcs[..|bcs| - 1]), bcs[|bcs| - 1])
  }

  method GroupByType(bcs: seq<Bc>) returns (groups: TypeGroups)
    ensures groups == Grouped(bcs)
  {
    groups := TypeGroups([], map[]);
    var i := 0;
    while i < |bcs|
      invariant 0 <= i <= |bcs|
      invariant groups == Grouped(bcs[..i])
    {
      assert bcs[..i + 1][..i] == bcs[..i];
      var typeBc := bcs[i].bcType;
      if typeBc in groups.lists {
        groups := TypeGroups(groups.types, groups.lists[typeBc := groups.lists[typeBc] + [bcs[i].name]]);
      } else {
        groups := TypeGroups(groups.types + [typeBc], groups.lists[typeBc := [bcs[i].name]]);
      }
      i := i + 1;
    }
    assert bcs[..|bcs|] == bcs;
  }

  /** The names of the boundaries of type t, in design order. */
  function OfType(bcs: seq<Bc>, t: string): (names: seq<string>)
    ensures |names| <= |bcs|
  {
    if |bcs| == 0 then []
    else OfType(bcs[..|bcs| - 1], t) + (if bcs[|bcs| - 1].bcType == t then [bcs[|bcs| - 1].name] else [])
  }

  /**
   * Each type met appears once as a key; the list under it holds exactly the names of the
   * boundaries of that type, in design order, so every name lands in one list only.
   */
  lemma {:induction false} GroupedSpec(bcs: seq<Bc>, t: string)
    ensures WellKeyed(Grouped(bcs))
    ensures t in Grouped(bcs).lists <==> exists i :: 0 <= i < |bcs| && bcs[i].bcType == t
    ensures t in Grouped(bcs).lists ==> Grouped(bcs).lists[t] == OfType(bcs, t)
  {
    if |bcs| > 0 {
      var init := bcs[..|bcs| - 1];
      var b := bcs[|bcs| - 1];
      GroupedSpec(init, t);
      GroupedSpec(init, b.bcType);
      var g := Grouped(init);
      if b.bcType !in g.lists {
        assert b.bcType !in g.types;
        forall i, j | 0 <= i < j < |g.types + [b.bcType]|
          ensures (g.types + [b.bcType])[i] != (g.types + [b.bcType])[j]
        {
          if j == |g.types| {
            assert (g.types + [b.bcType])[i] in g.types;
          }
        }
      }
      if exists i :: 0 <= i < |bcs| && bcs[i].bcType == t {
        var i :| 0 <= i < |bcs| && bcs[i].bcType == t;
        if i < |bcs| - 1 {
          assert init[i] == bcs[i];
        }
      }
      if exists i :: 0 <= i < |init| && init[i].bcType == t {
        var i :| 0 <= i < |init| && init[i].bcType == t;
        assert bcs[i] == init[i];
      }
      if b.bcType == t && t !in g.lists {
        OfTypeNone(init, t);
      }
    }
  }

  /** No boundary of type t, no names of type t. */
  lemma {:induction false} OfTypeNone(bcs: seq<Bc>, t: string)
    requires forall i :: 0 <= i < |bcs| ==> bcs[i].bcType != t
    ensures OfType(bcs, t) == []
  {
    if |bcs| > 0 {
      OfTypeNone(bcs[..|bcs| - 1], t);
    }
  }

  /** A boundary's name is in the list of its own type. */
  lemma {:induction false} OfTypeMembers(bcs: seq<Bc>, t: string, name: string)
    ensures name in OfType(bcs, t) <==> exists i :: 0 <= i < |bcs| && bcs[i] == Bc(name, t)
  {
    if |bcs| > 0 {
      var init := bcs[..|bcs| - 1];
      OfTypeMembers(init, t, name);
      if exists i :: 0 <= i < |bcs| && bcs[i] == Bc(name, t) {
        var i :| 0 <= i < |bcs| && bcs[i] == Bc(name, t);
        if i < |bcs| - 1 {
          assert init[i] == bcs[i];
        }
      }
      if exists i :: 0 <= i < |init| && init[i] == Bc(name, t) {
        var i :| 0 <= i < |init| && init[i] == Bc(name, t);
        assert bcs[i] == init[i];
      }
    }
  }

  // ---------------------------------------------------------------------------------
  // Objects a boundary is assigned to

  datatype BcKind = ObjectBased | FaceBased | Unassociated

  function KindOf(t: string): BcKind
  {
    if t == SolidBlock || t == HollowBlock || t == "Source" then ObjectBased
    else if t == NetworkType || t == "Opening" || t == "Conducting Plate" || t == "Grille" then FaceBased
    else Unassociated
  }

  /** [name(x) for x in ids] */
  function NamesOf(ids: seq<int>, name: int -> string): (r: seq<string>)
    ensures |r| == |ids| && forall k :: 0 <= k < |ids| ==> r[k] == name(ids[k])
  {
    if |ids| == 0 then [] else [name(ids[0])] + NamesOf(ids[1..], name)
  }

  /** A boundary and the single entry of its dict, or None when its dict stays empty. */
  datatype BcObjects = BcObjects(bc: string, bcType: string, objects: Option<seq<string>>)

  /**
   * The dict of one boundary: object-based types list the objects of all assigned ids,
   * face-based types the owner of the first assigned face (none assigned raises), other
   * types nothing.
   */
  function Associate(b: Bc, assignment: seq<int>, nameById: int -> string, nameByFace: int -> string): (r: Result<BcObjects>)
    ensures r.Err? <==> KindOf(b.bcType) == FaceBased && |assignment| == 0
    ensures r.Err? ==> r.message == IndexOutOfRange
    ensures r.Ok? ==> r.value.bc == b.name && r.value.bcType == b.bcType
    ensures r.Ok? ==> (r.value.objects.None? <==> KindOf(b.bcType) == Unassociated)
    ensures r.Ok? && KindOf(b.bcType) == FaceBased ==> r.value.objects == Some([nameByFace(assignment[0])])
    ensures r.Ok? && KindOf(b.bcType) == ObjectBased ==>
              |r.value.objects.value| == |assignment|
              && forall k :: 0 <= k < |assignment| ==> r.value.objects.value[k] == nameById(assignment[k])
  {
    match KindOf(b.bcType)
    case ObjectBased => Ok(BcObjects(b.name, b.bcType, Some(NamesOf(assignment, nameById))))
    case FaceBased =>
      if |assignment| == 0 then Err(IndexOutOfRange)
      else Ok(BcObjects(b.name, b.bcType, Some([nameByFace(assignment[0])])))
    case Unassociated => Ok(BcObjects(b.name, b.bcType, None))
  }

  function Associations(bcs: seq<Bc>, assignment: string -> seq<int>, nameById: int -> string,
                        nameByFace: int -> string): Result<seq<BcObjects>>
  {
    if |bcs| == 0 then Ok([])
    else match Associations(bcs[..|bcs| - 1], assignment, nameById, nameByFace)
      case Err(m) => Err(m)
      case Ok(init) =>
        var b := bcs[|bcs| - 1];
        match Associate(b, assignment(b.name), nameById, nameByFace)
        case Err(m) => Err(m)
        case Ok(entry) => Ok(init + [entry])
  }

  method AssociateAll(bcs: seq<Bc>, assignment: string -> seq<int>, nameById: int -> string,
                      nameByFace: int -> string) returns (r: Result<seq<BcObjects>>)
    ensures r == Associations(bcs, assignment, nameById, nameByFace)
  {
    var thermalBcs: seq<BcObjects> := [];
    var i := 0;
    while i < |bcs|
      invariant 0 <= i <= |bcs|
      invariant Associations(bcs[..i], assignment, nameById, nameByFace) == Ok(thermalBcs)
    {
      assert bcs[..i + 1][..i] == bcs[..i];
      var entry := Associate(bcs[i], assignment(bcs[i].name), nameById, nameByFace);
      if entry.Err? {
        assert Associations(bcs[..i + 1], assignment, nameById, nameByFace) == Err(entry.message);
        AssociationsStop(bcs, i + 1, assignment, nameById, nameByFace);
        assert bcs[..|bcs|] == bcs;
        return Err(entry.message);
      }
      thermalBcs := thermalBcs + [entry.value];
      i := i + 1;
    }
    assert bcs[..|bcs|] == bcs;
    return Ok(thermalBcs);
  }

  /** Once a boundary fails, the whole association fails with the same error. */
  lemma {:induction false} AssociationsStop(bcs: seq<Bc>, n: nat, assignment: string -> seq<int>,
                                            nameById: int -> string, nameByFace: int -> string)
    requires n <= |bcs|
    requires Associations(bcs[..n], assignment, nameById, nameByFace).Err?
    ensures Associations(bcs, assignment, nameById, nameByFace) == Associations(bcs[..n], assignment, nameById, nameByFace)
    decreases |bcs| - n
  {
    if n < |bcs| {
      assert bcs[..n + 1][..n] == bcs[..n];
      AssociationsStop(bcs, n + 1, assignment, nameById, nameByFace);
    } else {
      assert bcs[..n] == bcs;
    }
  }

  /** The association succeeds unless a face-based boundary has no face; then it lists every boundary in order. */
  lemma {:induction false} AssociationsSpec(bcs: seq<Bc>, assignment: string -> seq<int>, nameById: int -> string,
                                            nameByFace: int -> string)
    ensures var r := Associations(bcs, assignment, nameById, nameByFace);
            (r.Ok? <==> forall i :: 0 <= i < |bcs| ==> !(KindOf(bcs[i].bcType) == FaceBased && |assignment(bcs[i].name)| == 0))
            && (r.Ok? ==> |r.value| == |bcs|
                          && forall i :: 0 <= i < |bcs| ==> r.value[i] == Associate(bcs[i], assignment(bcs[i].name), nameById, nameByFace).value)
  {
    if |bcs| > 0 {
      var init := bcs[..|bcs| - 1];
      AssociationsSpec(init, assignment, nameById, nameByFace);
      assert forall i :: 0 <= i < |init| ==> init[i] == bcs[i];
    }
  }

  // ---------------------------------------------------------------------------------
  // Solid and hollow blocks for the maximum-temperature report

  /** The objects of the boundaries of type t, boundary by boundary. */
  function Collect(assoc: seq<BcObjects>, t: string): seq<string>
  {
    if |assoc| == 0 then []
    else
      var e := assoc[|assoc| - 1];
      Collect(assoc[..|assoc| - 1], t) + (if e.bcType == t && e.objects.Some? then e.objects.value else [])
  }

  method SplitBlocks(assoc: seq<BcObjects>, comp3dParts: Option<seq<string>>) returns (solid: seq<string>, hollow: seq<string>)
    ensures solid == Collect(assoc, SolidBlock) + (if comp3dParts.Some? then comp3dParts.value else [])
    ensures hollow == Collect(assoc, HollowBlock)
  {
    solid := [];
    hollow := [];
    var i := 0;
    while i < |assoc|
      invariant 0 <= i <= |assoc|
      invariant solid == Collect(assoc[..i], SolidBlock)
      invariant hollow == Collect(assoc[..i], HollowBlock)
    {
      assert assoc[..i + 1][..i] == assoc[..i];
      var e := assoc[i];
      if e.objects.Some? && (e.bcType == SolidBlock || e.bcType == HollowBlock) {
        var names := e.objects.value;
        var k := 0;
        ghost var before := if e.bcType == SolidBlock then solid else hollow;
        while k < |names|
          invariant 0 <= k <= |names|
          invariant e.bcType == SolidBlock ==> solid == before + names[..k] && hollow == Collect(assoc[..i], HollowBlock)
          invariant e.bcType == HollowBlock ==> hollow == before + names[..k] && solid == Collect(assoc[..i], SolidBlock)
        {
          assert names[..k + 1] == names[..k] + [names[k]];
          if e.bcType == SolidBlock {
            solid := solid + [names[k]];
          } else {
            hollow := hollow + [names[k]];
          }
          k := k + 1;
        }
        assert names[..|names|] == names;
      }
      i := i + 1;
    }
    assert assoc[..|assoc|] == assoc;
    if comp3dParts.Some? {
      solid := solid + comp3dParts.value;
    }
  }

  /** An object is collected for type t exactly when a boundary of type t lists it. */
  lemma {:induction false} CollectMembers(assoc: seq<BcObjects>, t: string, x: string)
    ensures x in Collect(assoc, t) <==>
            exists i :: 0 <= i < |assoc| && assoc[i].bcType == t && assoc[i].objects.Some? && x in assoc[i].objects.value
  {
    if |assoc| > 0 {
      var init := assoc[..|assoc| - 1];
      CollectMembers(init, t, x);
      if exists i :: 0 <= i < |assoc| && assoc[i].bcType == t && assoc[i].objects.Some? && x in assoc[i].objects.value {
        var i :| 0 <= i < |assoc| && assoc[i].bcType == t && assoc[i].objects.Some? && x in assoc[i].objects.value;
        if i < |assoc| - 1 {
          assert init[i] == assoc[i];
        }
      }
      if exists i :: 0 <= i < |init| && init[i].bcType == t && init[i].objects.Some? && x in init[i].objects.value {
        var i :| 0 <= i < |init| && init[i].bcType == t && init[i].objects.Some? && x in init[i].objects.value;
        assert assoc[i] == init[i];
      }
    }
  }

  /** The named expressions of the report: solid blocks first, then hollow blocks. */
  function MaxTemperatureExpressions(assoc: seq<BcObjects>, comp3dParts: Option<seq<string>>): seq<string>
  {
    Collect(assoc, SolidBlock) + (if comp3dParts.Some? then comp3dParts.value else []) + Collect(assoc, HollowBlock)
  }

  /** Only solid blocks, hollow blocks and 3D-component parts are reported. */
  lemma {:induction false} MaxTemperatureSources(assoc: seq<BcObjects>, comp3dParts: Option<seq<string>>, x: string)
    ensures x in MaxTemperatureExpressions(assoc, comp3dParts) <==>
            (comp3dParts.Some? && x in comp3dParts.value)
            || exists i :: 0 <= i < |assoc| && (assoc[i].bcType == SolidBlock || assoc[i].bcType == HollowBlock)
                           && assoc[i].objects.Some? && x in assoc[i].objects.value
  {
    CollectMembers(assoc, SolidBlock, x);
    CollectMembers(assoc, HollowBlock, x);
  }

  // ---------------------------------------------------------------------------------
  // Region removal and components

  /** Components are the model objects, without the region, that are not PCB layers. */
  function Components(modelObjects: seq<string>, pcbLayers: seq<string>): seq<string>
  {
    Without(RemoveIfPresent(modelObjects, RegionName), pcbLayers)
  }

  lemma {:induction false} ComponentsSpec(modelObjects: seq<string>, pcbLayers: seq<string>, x: string)
    requires Distinct(modelObjects)
    ensures x in Components(modelObjects, pcbLayers) <==> x in modelObjects && x != RegionName && x !in pcbLayers
  {
    RemoveDistinct(modelObjects, RegionName);
  }

  /** With the region listed at most once, the components are the objects in their own order, filtered. */
  lemma {:induction false} ComponentsInOrder(modelObjects: seq<string>, pcbLayers: seq<string>)
    requires forall i, j :: 0 <= i < j < |modelObjects| && modelObjects[i] == RegionName ==> modelObjects[j] != RegionName
    ensures Components(modelObjects, pcbLayers) == Without(modelObjects, pcbLayers + [RegionName])
  {
    if |modelObjects| > 0 {
      var rest := modelObjects[1..];
      if modelObjects[0] == RegionName {
        assert RegionName !in rest by {
          forall k | 0 <= k < |rest| ensures rest[k] != RegionName {
            assert rest[k] == modelObjects[k + 1];
          }
        }
        WithoutAbsent(rest, pcbLayers, RegionName);
      } else {
        forall i, j | 0 <= i < j < |rest| && rest[i] == RegionName ensures rest[j] != RegionName {
          assert rest[i] == modelObjects[i + 1] && rest[j] == modelObjects[j + 1];
        }
        ComponentsInOrder(rest, pcbLayers);
      }
    }
  }

  /** Excluding a value the list does not hold changes nothing. */
  lemma {:induction false} WithoutAbsent(xs: seq<string>, excluded: seq<string>, x: string)
    requires x !in xs
    ensures Without(xs, excluded + [x]) == Without(xs, excluded)
  {
    if |xs| > 0 {
      assert xs[0] != x;
      WithoutAbsent(xs[1..], excluded, x);
    }
  }

  // ---------------------------------------------------------------------------------
  // Quantity and expression names

  /** The prefix of a monitor point's name before its component (02_Simulate.py names them so). */
  const PointPrefix := "point_"
  const TemperatureSuffix := ".Temperature"
  const NetworkSuffix := ".Internal.Temperature"
  const BoardSideSuffix := "_board_side"
  const HeatFluxSuffix := "_heat_flux"

  /** One quantity per monitor point, in point order. */
  method MonitorQuantities(points: seq<string>) returns (quantities: seq<string>)
    ensures |quantities| == |points|
    ensures forall k :: 0 <= k < |points| ==> quantities[k] == points[k] + TemperatureSuffix
  {
    quantities := [];
    var i := 0;
    while i < |points|
      invariant 0 <= i <= |points|
      invariant |quantities| == i
      invariant forall k :: 0 <= k < i ==> quantities[k] == points[k] + TemperatureSuffix
    {
      quantities := quantities + [points[i] + TemperatureSuffix];
      i := i + 1;
    }
  }

  datatype NetworkQuery = Quantities(names: seq<string>) | NoNetwork(message: string)

  /** The network report asks for every network boundary's internal temperature, if there is any. */
  method NetworkQuantities(groups: TypeGroups) returns (r: NetworkQuery)
    ensures r.NoNetwork? <==> NetworkType !in groups.lists
    ensures r.NoNetwork? ==> r.message == NoNetworkMessage
    ensures r.Quantities? ==> (|r.names| == |groups.lists[NetworkType]|
              && forall k :: 0 <= k < |r.names| ==> r.names[k] == groups.lists[NetworkType][k] + NetworkSuffix)
  {
    if NetworkType !in groups.lists {
      return NoNetwork(NoNetworkMessage);
    }
    var blocks := groups.lists[NetworkType];
    var quantities := [];
    var i := 0;
    while i < |blocks|
      invariant 0 <= i <= |blocks|
      invariant |quantities| == i
      invariant forall k :: 0 <= k < i ==> quantities[k] == blocks[k] + NetworkSuffix
    {
      quantities := quantities + [blocks[i] + NetworkSuffix];
      i := i + 1;
    }
    return Quantities(quantities);
  }

  /** The face id is the second space-separated word of the face's text. */
  function FaceId(face: string): (r: Result<string>)
    ensures r.Err? <==> |Split(face, ' ')| < 2
    ensures r.Err? ==> r.message == IndexOutOfRange
  {
    var words := Split(face, ' ');
    if |words| < 2 then Err(IndexOutOfRange) else Ok(words[1])
  }

  lemma {:induction false} FaceIdOfWords(words: seq<string>)
    requires |words| >= 2
    requires forall k :: 0 <= k < |words| ==> ' ' !in words[k]
    ensures FaceId(Join(words, ' ')) == Ok(words[1])
  {
    SplitJoin(words, ' ');
  }

  /** The first face touching the top layer, else the first touching the bottom layer. */
  function BoardSideFace(touchingTop: seq<string>, touchingBottom: seq<string>): (r: Result<string>)
    ensures r.Ok? <==> |touchingTop| > 0 || |touchingBottom| > 0
    ensures r.Ok? ==> r.value == if |touchingTop| > 0 then touchingTop[0] else touchingBottom[0]
  {
    if |touchingTop| > 0 then Ok(touchingTop[0])
    else if |touchingBottom| > 0 then Ok(touchingBottom[0])
    else Err(IndexOutOfRange)
  }

  /** For one component: the face id, the face-list name and the heat-flux expression name. */
  datatype HeatFluxEntry = HeatFluxEntry(component: string, faceId: string, faceList: string, expression: string)

  function HeatFluxEntryOf(comp: string, touchingTop: seq<string>, touchingBottom: seq<string>): (r: Result<HeatFluxEntry>)
    ensures r.Err? <==> BoardSideFace(touchingTop, touchingBottom).Err? || FaceId(BoardSideFace(touchingTop, touchingBottom).value).Err?
    ensures r.Err? ==> r.message == IndexOutOfRange
    ensures r.Ok? ==> r.value.faceId == Split(BoardSideFace(touchingTop, touchingBottom).value, ' ')[1]
    ensures r.Ok? ==> r.value.component == comp
                      && r.value.faceList == comp + BoardSideSuffix
                      && r.value.expression == comp + BoardSideSuffix + HeatFluxSuffix
  {
    match BoardSideFace(touchingTop, touchingBottom)
    case Err(m) => Err(m)
    case Ok(face) =>
      match FaceId(face)
      case Err(m) => Err(m)
      case Ok(id) => Ok(HeatFluxEntry(comp, id, comp + BoardSideSuffix, comp + BoardSideSuffix + HeatFluxSuffix))
  }

  /** One entry per component in component order; a component without a board face raises. */
  method HeatFluxPlan(components: seq<string>, touchingTop: string -> seq<string>,
                      touchingBottom: string -> seq<string>) returns (r: Result<seq<HeatFluxEntry>>)
    ensures r.Ok? <==> forall k :: 0 <= k < |components| ==>
                         HeatFluxEntryOf(components[k], touchingTop(components[k]), touchingBottom(components[k])).Ok?
    ensures r.Err? ==> r.message == IndexOutOfRange
    ensures r.Ok? ==> |r.value| == |components|
                      && forall k :: 0 <= k < |components| ==>
                           r.value[k] == HeatFluxEntryOf(components[k], touchingTop(components[k]), touchingBottom(components[k])).value
  {
    var entries: seq<HeatFluxEntry> := [];
    var i := 0;
    while i < |components|
      invariant 0 <= i <= |components|
      invariant |entries| == i
      invariant forall k :: 0 <= k < i ==>
                  HeatFluxEntryOf(components[k], touchingTop(components[k]), touchingBottom(components[k])).Ok?
                  && entries[k] == HeatFluxEntryOf(components[k], touchingTop(components[k]), touchingBottom(components[k])).value
    {
      var c := components[i];
      var entry := HeatFluxEntryOf(c, touchingTop(c), touchingBottom(c));
      if entry.Err? {
        return Err(entry.message);
      }
      entries := entries + [entry.value];
      i := i + 1;
    }
    return Ok(entries);
  }

  // ---------------------------------------------------------------------------------
  // Renaming the report columns

  /** The rename loop: one new name per exported column, in column order. */
  method RenameColumns(columns: seq<string>, rename: string -> string) returns (renamed: seq<string>)
    ensures |renamed| == |columns|
    ensures forall k :: 0 <= k < |columns| ==> renamed[k] == rename(columns[k])
  {
    renamed := [];
    var i := 0;
    while i < |columns|
      invariant 0 <= i <= |columns|
      invariant |renamed| == i
      invariant forall k :: 0 <= k < i ==> renamed[k] == rename(columns[k])
    {
      renamed := renamed + [rename(columns[i])];
      i := i + 1;
    }
  }

  const PointPrefixChars := CharSet("point_")
  const TemperatureChars := CharSet(".Temperature")
  const NetworkChars := CharSet(".Internal.Temperature [cel]")
  const BracketChars := CharSet("[]")
  const HeatFluxChars := CharSet("_board_side_heat_flux []")

  /** Monitor columns as the page renames them: strip('point_'), keep the first
      space-separated word, strip('.Temperature'). */
  function MonitorColumnNameAsWritten(column: string): string
  {
    Strip(Split(Strip(column, PointPrefixChars), ' ')[0], TemperatureChars)
  }

  /** Object columns: strip('[]'). */
  function ObjectColumnName(column: string): string
  {
    Strip(column, BracketChars)
  }

  /** Heat-flux columns: strip('_board_side_heat_flux []'). */
  function HeatFluxColumnName(column: string): string
  {
    Strip(column, HeatFluxChars)
  }

  /** Network columns as the page renames them: strip('.Internal.Temperature [cel]'). */
  function NetworkColumnNameAsWritten(column: string): string
  {
    Strip(column, NetworkChars)
  }

  /** Each rename is a slice of its column whose ends are outside the stripped set, and renaming again changes nothing. */
  lemma {:induction false} RenamesAreStrips(column: string)
    ensures Strip(ObjectColumnName(column), BracketChars) == ObjectColumnName(column)
    ensures Strip(HeatFluxColumnName(column), HeatFluxChars) == HeatFluxColumnName(column)
    ensures Strip(NetworkColumnNameAsWritten(column), NetworkChars) == NetworkColumnNameAsWritten(column)
    ensures Strip(MonitorColumnNameAsWritten(column), TemperatureChars) == MonitorColumnNameAsWritten(column)
    ensures var r := ObjectColumnName(column);
            r == [] || (r[0] !in BracketChars && r[|r| - 1] !in BracketChars)
    ensures var r := HeatFluxColumnName(column);
            r == [] || (r[0] !in HeatFluxChars && r[|r| - 1] !in HeatFluxChars)
  {
    StripIdempotent(column, BracketChars);
    StripIdempotent(column, HeatFluxChars);
    StripIdempotent(column, NetworkChars);
    StripIdempotent(Split(Strip(column, PointPrefixChars), ' ')[0], TemperatureChars);
    StripSpec(column, BracketChars);
    StripSpec(column, HeatFluxChars);
  }

  /** A board-side heat-flux expression renames back to its component when the name's ends are outside the set. */
  lemma {:induction false} HeatFluxColumnRecovers(comp: string)
    requires |comp| > 0 && comp[0] !in HeatFluxChars && comp[|comp| - 1] !in HeatFluxChars
    ensures HeatFluxColumnName(comp + BoardSideSuffix + HeatFluxSuffix) == comp
  {
    var suffix := BoardSideSuffix + HeatFluxSuffix;
    assert suffix <= "_board_side_heat_flux []";
    PrefixChars(suffix, "_board_side_heat_flux []");
    assert "" + comp + suffix == comp + BoardSideSuffix + HeatFluxSuffix;
    StripFrame("", comp, suffix, HeatFluxChars);
  }

  /**
   * The network rename as written strips characters, not the suffix: a boundary whose name
   * starts with I loses that letter, so the column of network IC1 is renamed C1.
   */
  lemma {:induction false} NetworkRenameLosesLeadingI(m: string)
    requires |m| > 0 && m[0] !in NetworkChars && m[|m| - 1] !in NetworkChars
    ensures NetworkColumnNameAsWritten("I" + m + NetworkSuffix) == m
  {
    var chars := ".Internal.Temperature [cel]";
    assert chars[1] == 'I';
    assert NetworkSuffix <= chars;
    PrefixChars(NetworkSuffix, chars);
    StripFrame("I", m, NetworkSuffix, NetworkChars);
  }

  lemma {:induction false} NetworkRenameExample()
    ensures NetworkColumnNameAsWritten("IC1" + NetworkSuffix) == "C1"
  {
    assert 'C' !in NetworkChars && '1' !in NetworkChars;
    assert "I" + "C1" == "IC1";
    NetworkRenameLosesLeadingI("C1");
  }

  /** s without the suffix, when s ends with it. */
  function RemoveSuffix(s: string, suffix: string): (r: string)
    ensures |s| >= |suffix| && s[|s| - |suffix|..] == suffix ==> r + suffix == s
    ensures !(|s| >= |suffix| && s[|s| - |suffix|..] == suffix) ==> r == s
  {
    if |s| >= |suffix| && s[|s| - |suffix|..] == suffix then s[..|s| - |suffix|] else s
  }

  /** Network columns with the name recovered as intended: the first word, less the quantity suffix. */
  function NetworkColumnName(column: string): string
  {
    RemoveSuffix(Split(column, ' ')[0], NetworkSuffix)
  }

  /** A name without spaces followed by a quantity suffix without spaces is one word. */
  lemma {:induction false} NoSpaceAppend(a: string, b: string)
    requires ' ' !in a && ' ' !in b
    ensures ' ' !in a + b
  {
    forall k | 0 <= k < |a + b| ensures (a + b)[k] != ' ' {
      if k < |a| {
        assert (a + b)[k] == a[k];
      } else {
        assert (a + b)[k] == b[k - |a|];
      }
    }
  }

  /** The first space-separated word of a word followed by text that starts with a space. */
  lemma {:induction false} FirstWord(q: string, unit: string)
    requires ' ' !in q
    requires unit == [] || unit[0] == ' '
    ensures Split(q + unit, ' ')[0] == q
  {
    SplitPrefix(q, unit, ' ');
    if unit != [] {
      assert Split(unit, ' ')[0] == [];
    }
    assert q + [] == q;
  }

  /** The intended rename inverts the quantity name, whatever unit text follows it after a space. */
  lemma {:induction false} NetworkColumnRecovers(name: string, unit: string)
    requires ' ' !in name
    requires unit == [] || unit[0] == ' '
    ensures NetworkColumnName(name + NetworkSuffix + unit) == name
  {
    var q := name + NetworkSuffix;
    assert ' ' !in NetworkSuffix;
    NoSpaceAppend(name, NetworkSuffix);
    FirstWord(q, unit);
    assert q[|q| - |NetworkSuffix|..] == NetworkSuffix;
    assert q[..|q| - |NetworkSuffix|] == name;
  }

  /**
   * The heat-flux rename as written strips characters, not the suffix: a component whose name
   * ends in a letter of the set loses it, so the column of R1a is renamed R1.
   */
  lemma {:induction false} HeatFluxRenameLosesTrailing(m: string, c: char)
    requires |m| > 0 && m[0] !in HeatFluxChars && m[|m| - 1] !in HeatFluxChars
    requires c in HeatFluxChars
    ensures HeatFluxColumnName(m + [c] + BoardSideSuffix + HeatFluxSuffix) == m
  {
    var suffix := BoardSideSuffix + HeatFluxSuffix;
    assert suffix <= "_board_side_heat_flux []";
    PrefixChars(suffix, "_board_side_heat_flux []");
    var tail := [c] + suffix;
    forall k | 0 <= k < |tail| ensures tail[k] in HeatFluxChars {
      if k > 0 {
        assert tail[k] == suffix[k - 1];
      }
    }
    assert m + [c] + BoardSideSuffix + HeatFluxSuffix == "" + m + tail;
    StripFrame("", m, tail, HeatFluxChars);
  }

  lemma {:induction false} HeatFluxRenameExample()
    ensures HeatFluxColumnName("R1a" + BoardSideSuffix + HeatFluxSuffix) == "R1"
  {
    assert 'R' !in HeatFluxChars && '1' !in HeatFluxChars && 'a' in HeatFluxChars;
    assert "R1" + ['a'] == "R1a";
    HeatFluxRenameLosesTrailing("R1", 'a');
  }

  /** Heat-flux columns with the component recovered as intended: the first word, less the
      board-side heat-flux suffix. */
  function HeatFluxComponentName(column: string): string
  {
    RemoveSuffix(Split(column, ' ')[0], BoardSideSuffix + HeatFluxSuffix)
  }

  /** The intended rename gives back any space-free component name, whatever unit text
      follows its expression after a space. */
  lemma {:induction false} HeatFluxComponentRecovers(comp: string, unit: string)
    requires ' ' !in comp
    requires unit == [] || unit[0] == ' '
    ensures HeatFluxComponentName(comp + BoardSideSuffix + HeatFluxSuffix + unit) == comp
  {
    var suffix := BoardSideSuffix + HeatFluxSuffix;
    var q := comp + suffix;
    assert ' ' !in suffix;
    NoSpaceAppend(comp, suffix);
    FirstWord(q, unit);
    assert comp + BoardSideSuffix + HeatFluxSuffix + unit == q + unit;
    assert q[|q| - |suffix|..] == suffix;
    assert q[..|q| - |suffix|] == comp;
  }

  /** Stripping the point prefix leaves the quantity and its unit. */
  lemma {:induction false} StripPointPrefix(core: string)
    requires |core| > 0 && core[0] !in PointPrefixChars && core[|core| - 1] !in PointPrefixChars
    ensures Strip("point_" + core, PointPrefixChars) == core
  {
    PrefixChars("point_", "point_");
    assert "point_" + core + "" == "point_" + core;
    StripFrame("point_", core, "", PointPrefixChars);
  }

  /** Stripping the temperature characters leaves the point name. */
  lemma {:induction false} StripTemperature(name: string)
    requires |name| > 0 && name[0] !in TemperatureChars && name[|name| - 1] !in TemperatureChars
    ensures Strip(name + TemperatureSuffix, TemperatureChars) == name
  {
    PrefixChars(TemperatureSuffix, ".Temperature");
    assert "" + name + TemperatureSuffix == name + TemperatureSuffix;
    StripFrame("", name, TemperatureSuffix, TemperatureChars);
  }

  /** The ends of a monitor column after its point prefix. */
  lemma {:induction false} QuantityEnds(name: string, unit: string)
    requires |name| > 0 && name[0] !in PointPrefixChars
    requires unit == [] || unit[|unit| - 1] !in PointPrefixChars
    ensures var core := name + TemperatureSuffix + unit;
            core[0] !in PointPrefixChars && core[|core| - 1] !in PointPrefixChars
  {
    var core := name + TemperatureSuffix + unit;
    assert core[0] == name[0];
    if unit == [] {
      assert core[|core| - 1] == 'e';
    } else {
      assert core[|core| - 1] == unit[|unit| - 1];
    }
  }

  /** Up to the last strip, the monitor rename as written recovers the quantity name. */
  lemma {:induction false} MonitorRenameQuantity(name: string, unit: string)
    requires |name| > 0 && ' ' !in name && name[0] !in PointPrefixChars
    requires unit == [] || (unit[0] == ' ' && unit[|unit| - 1] !in PointPrefixChars)
    ensures MonitorColumnNameAsWritten("point_" + name + TemperatureSuffix + unit) ==
            Strip(name + TemperatureSuffix, TemperatureChars)
  {
    var q := name + TemperatureSuffix;
    var core := q + unit;
    QuantityEnds(name, unit);
    StripPointPrefix(core);
    assert "point_" + name + TemperatureSuffix + unit == "point_" + core;
    assert ' ' !in TemperatureSuffix;
    NoSpaceAppend(name, TemperatureSuffix);
    FirstWord(q, unit);
  }

  /** A monitor point renames back to its name when its ends and its unit text avoid the stripped sets. */
  lemma {:induction false} MonitorColumnRecoversAsWritten(name: string, unit: string)
    requires |name| > 0 && ' ' !in name
    requires name[0] !in PointPrefixChars && name[0] !in TemperatureChars && name[|name| - 1] !in TemperatureChars
    requires unit == [] || (unit[0] == ' ' && unit[|unit| - 1] !in PointPrefixChars)
    ensures MonitorColumnNameAsWritten("point_" + name + TemperatureSuffix + unit) == name
  {
    MonitorRenameQuantity(name, unit);
    StripTemperature(name);
  }

  /**
   * The monitor rename as written strips characters, not the suffix: a point whose
   * component name starts with T loses that letter, so point_TP1 is renamed P1.
   */
  lemma {:induction false} MonitorRenameLosesLeadingT(m: string, unit: string)
    requires |m| > 0 && ' ' !in m
    requires m[0] !in TemperatureChars && m[|m| - 1] !in TemperatureChars
    requires unit == [] || (unit[0] == ' ' && unit[|unit| - 1] !in PointPrefixChars)
    ensures MonitorColumnNameAsWritten("point_T" + m + TemperatureSuffix + unit) == m
  {
    assert ".Temperature"[1] == 'T';
    var name := "T" + m;
    assert 'T' !in PointPrefixChars;
    assert ' ' !in name by {
      assert forall k :: 1 <= k < |name| ==> name[k] == m[k - 1];
    }
    assert "point_T" + m == "point_" + name;
    MonitorRenameQuantity(name, unit);
    PrefixChars(TemperatureSuffix, ".Temperature");
    StripFrame("T", m, TemperatureSuffix, TemperatureChars);
  }

  lemma {:induction false} MonitorRenameExample()
    ensures MonitorColumnNameAsWritten("point_TP1" + TemperatureSuffix + " [cel]") == "P1"
  {
    assert 'P' !in TemperatureChars && '1' !in TemperatureChars && ' ' !in "P1";
    assert " [cel]"[0] == ' ' && " [cel]"[5] !in PointPrefixChars;
    assert "point_T" + "P1" == "point_TP1";
    MonitorRenameLosesLeadingT("P1", " [cel]");
  }

  /** s without the prefix, when s starts with it. */
  function RemovePrefix(s: string, prefix: string): (r: string)
    ensures prefix <= s ==> prefix + r == s
    ensures !(prefix <= s) ==> r == s
  {
    if prefix <= s then s[|prefix|..] else s
  }

  /** Monitor columns with the name recovered as intended: less the point prefix, the
      first word, less the quantity suffix. */
  function MonitorColumnName(column: string): string
  {
    RemoveSuffix(Split(RemovePrefix(column, PointPrefix), ' ')[0], TemperatureSuffix)
  }

  /** The intended rename inverts the monitor quantity name, whatever unit text follows it
      after a space. */
  lemma {:induction false} MonitorColumnRecovers(name: string, unit: string)
    requires ' ' !in name
    requires unit == [] || unit[0] == ' '
    ensures MonitorColumnName(PointPrefix + name + TemperatureSuffix + unit) == name
  {
    var q := name + TemperatureSuffix;
    assert PointPrefix + name + TemperatureSuffix + unit == PointPrefix + (q + unit);
    assert RemovePrefix(PointPrefix + (q + unit), PointPrefix) == q + unit;
    assert ' ' !in TemperatureSuffix;
    NoSpaceAppend(name, TemperatureSuffix);
    FirstWord(q, unit);
    assert q[|q| - |TemperatureSuffix|..] == TemperatureSuffix;
    assert q[..|q| - |TemperatureSuffix|] == name;
  }
}
