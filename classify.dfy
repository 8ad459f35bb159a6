/** Classification of one layer's shapes into per-cell buckets, driven by the
    layer's free-text purpose: the specification functions, the lemmas that
    say what they mean, and the loop that fills one bucket. */
module Classify {
  import opened Engine

  /** The classified shapes of one cell on one layer. */
  datatype CellShapes = CellShapes(
    polygons: seq<Shape>,
    paths: seq<Shape>,
    labels: seq<Shape>,
    boxes: seq<Shape>,
    pins: seq<Point>,
    nets: seq<Shape>)
  {
    /** `is_empty`: the first non-empty list decides false. */
    function IsEmpty(): (r: bool)
      ensures r <==> |polygons| + |paths| + |labels| + |boxes| + |pins| + |nets| == 0
    {
      if polygons != [] then false
      else if paths != [] then false
      else if labels != [] then false
      else if boxes != [] then false
      else if pins != [] then false
      else if nets != [] then false
      else true
    }
  }

  // ---------------------------------------------------------------------
  // Purpose matching: lower-casing and substring search

  function LowerChar(c: char): char {
    if 'A' <= c <= 'Z' then (c as int - 'A' as int + 'a' as int) as char else c
  }

  /** `s.lower()`, on ASCII letters. */
  function Lower(s: string): (r: string)
    ensures |r| == |s|
    ensures forall i :: 0 <= i < |r| ==> !('A' <= r[i] <= 'Z')
    ensures forall i :: 0 <= i < |r| ==> LowerChar(r[i]) == LowerChar(s[i])
  {
    seq(|s|, i requires 0 <= i < |s| => LowerChar(s[i]))
  }

  /** `sub in s` for strings. */
  predicate Contains(s: string, sub: string)
    decreases |s|
  {
    |sub| <= |s| && (s[..|sub|] == sub || Contains(s[1..], sub))
  }

  /** `sub` occurs in `s` at offset `i`. */
  predicate OccursAt(s: string, sub: string, i: int) {
    0 <= i <= |s| - |sub| && s[i..i + |sub|] == sub
  }

  /** `Contains` finds `sub` exactly when it occurs at some offset of `s`. */
  lemma {:induction false} ContainsIff(s: string, sub: string)
    ensures Contains(s, sub) <==> exists i :: OccursAt(s, sub, i)
    decreases |s|
  {
    if |sub| <= |s| {
      if s[..|sub|] == sub {
        assert OccursAt(s, sub, 0);
      } else {
        ContainsIff(s[1..], sub);
        if Contains(s[1..], sub) {
          var j :| OccursAt(s[1..], sub, j);
          assert s[j + 1..j + 1 + |sub|] == s[1..][j..j + |sub|];
          assert OccursAt(s, sub, j + 1);
        }
        if exists i :: OccursAt(s, sub, i) {
          var i :| OccursAt(s, sub, i);
          assert i > 0;
          assert s[1..][i - 1..i - 1 + |sub|] == s[i..i + |sub|];
          assert OccursAt(s[1..], sub, i - 1);
        }
      }
    }
  }

  predicate PinPurpose(purpose: string) { Contains(Lower(purpose), "pin") }
  predicate NetPurpose(purpose: string) { Contains(Lower(purpose), "net") }
  predicate DrawingPurpose(purpose: string) { Contains(Lower(purpose), "drawing") }

  // ---------------------------------------------------------------------
  // Filters over a shape list, defined from the last element so that they
  // follow a loop that appends

  /** The shapes of kind `k`, in list order. */
  function OfKind(s: seq<Shape>, k: Kind): (r: seq<Shape>)
    ensures |r| <= |s|
  {
    if s == [] then []
    else OfKind(s[..|s| - 1], k) + (if s[|s| - 1].kind == k then [s[|s| - 1]] else [])
  }

  /** The centres of the box shapes, in list order. */
  function BoxCentres(s: seq<Shape>): seq<Point> {
    if s == [] then []
    else BoxCentres(s[..|s| - 1]) + (if s[|s| - 1].kind == Box then [s[|s| - 1].center] else [])
  }

  /** Each shape of kind `k` occurs in the filter as often as in the list;
      no other shape occurs in it. */
  lemma {:induction false} OfKindCounts(s: seq<Shape>, k: Kind, x: Shape)
    ensures multiset(OfKind(s, k))[x] == if x.kind == k then multiset(s)[x] else 0
  {
    if s != [] {
      var init := s[..|s| - 1];
      assert s == init + [s[|s| - 1]];
      OfKindCounts(init, k, x);
    }
  }

  /** Membership form of OfKindCounts. */
  lemma OfKindMembers(s: seq<Shape>, k: Kind, x: Shape)
    ensures x in OfKind(s, k) <==> x in s && x.kind == k
  {
    OfKindCounts(s, k, x);
    assert x in OfKind(s, k) <==> multiset(OfKind(s, k))[x] > 0;
    assert x in s <==> multiset(s)[x] > 0;
  }

  /** Filtering preserves order: it distributes over concatenation. */
  lemma {:induction false} OfKindAppend(a: seq<Shape>, b: seq<Shape>, k: Kind)
    ensures OfKind(a + b, k) == OfKind(a, k) + OfKind(b, k)
    decreases |b|
  {
    if b == [] {
      assert a + b == a;
    } else {
      var b' := b[..|b| - 1];
      assert (a + b)[..|a + b| - 1] == a + b';
      OfKindAppend(a, b', k);
    }
  }

  /** The pins are exactly the centres of the box shapes, one per box, in order. */
  lemma {:induction false} BoxCentresOfBoxes(s: seq<Shape>)
    ensures |BoxCentres(s)| == |OfKind(s, Box)|
    ensures forall i :: 0 <= i < |BoxCentres(s)| ==> BoxCentres(s)[i] == OfKind(s, Box)[i].center
  {
    if s != [] {
      BoxCentresOfBoxes(s[..|s| - 1]);
    }
  }

  /** Every shape has exactly one of the five kinds. */
  lemma {:induction false} KindsPartition(s: seq<Shape>)
    ensures |OfKind(s, Box)| + |OfKind(s, Polygon)| + |OfKind(s, Path)|
            + |OfKind(s, Text)| + |OfKind(s, Other)| == |s|
  {
    if s != [] {
      KindsPartition(s[..|s| - 1]);
    }
  }

  // ---------------------------------------------------------------------
  // Classification of one cell and of a whole layout

  predicate Drawn(k: Kind) { k == Polygon || k == Box || k == Path }

  /** The bucket of one cell: the four rules of the classification, each
      applied to the whole shape list independently of the others. */
  function ClassifyCell(s: seq<Shape>, purpose: string, skipLabels: bool): CellShapes {
    var drawing := DrawingPurpose(purpose);
    CellShapes(
      polygons := if drawing then OfKind(s, Polygon) else [],
      paths := if drawing then OfKind(s, Path) else [],
      labels := if !skipLabels then OfKind(s, Text) else [],
      boxes := if drawing then OfKind(s, Box) else [],
      pins := if PinPurpose(purpose) then BoxCentres(s) else [],
      nets := if NetPurpose(purpose) then s else [])
  }

  /** Pin rule: with "pin" in the purpose the pins are the box centres in
      order (polygons contribute nothing); otherwise there are none. */
  lemma PinRule(s: seq<Shape>, purpose: string, skipLabels: bool)
    ensures var b := ClassifyCell(s, purpose, skipLabels);
      if PinPurpose(purpose) then
        |b.pins| == |OfKind(s, Box)| &&
        forall i :: 0 <= i < |b.pins| ==> b.pins[i] == OfKind(s, Box)[i].center
      else b.pins == []
  {
    BoxCentresOfBoxes(s);
  }

  /** Drawing rule: with "drawing" in the purpose, polygons, boxes and paths
      together hold each drawn shape as often as the list does and nothing
      else, and so are no longer than the list; otherwise all three are empty. */
  lemma DrawingRule(s: seq<Shape>, purpose: string, skipLabels: bool, x: Shape)
    ensures var b := ClassifyCell(s, purpose, skipLabels);
      if DrawingPurpose(purpose) then
        multiset(b.polygons + b.boxes + b.paths)[x] == (if Drawn(x.kind) then multiset(s)[x] else 0) &&
        |b.polygons| + |b.boxes| + |b.paths| <= |s|
      else b.polygons == [] && b.boxes == [] && b.paths == []
  {
    OfKindCounts(s, Polygon, x);
    OfKindCounts(s, Box, x);
    OfKindCounts(s, Path, x);
    KindsPartition(s);
  }

  /** Label rule: unless labels are skipped, the labels hold each text shape
      as often as the list does and nothing else; otherwise none. */
  lemma LabelRule(s: seq<Shape>, purpose: string, skipLabels: bool, x: Shape)
    ensures var b := ClassifyCell(s, purpose, skipLabels);
      if !skipLabels then multiset(b.labels)[x] == (if x.kind == Text then multiset(s)[x] else 0)
      else b.labels == []
  {
    OfKindCounts(s, Text, x);
  }

  /** The rules are independent: which lists a shape of the layer lands in
      depends on its kind and the purpose only, and one shape may land in
      several lists (a polygon of a "net drawing" layer is in nets and polygons). */
  lemma MembershipRules(s: seq<Shape>, purpose: string, skipLabels: bool, x: Shape)
    ensures var b := ClassifyCell(s, purpose, skipLabels);
      && (x in b.nets <==> NetPurpose(purpose) && x in s)
      && (x in b.labels <==> !skipLabels && x in s && x.kind == Text)
      && (x in b.polygons <==> DrawingPurpose(purpose) && x in s && x.kind == Polygon)
      && (x in b.boxes <==> DrawingPurpose(purpose) && x in s && x.kind == Box)
      && (x in b.paths <==> DrawingPurpose(purpose) && x in s && x.kind == Path)
  {
    OfKindMembers(s, Text, x);
    OfKindMembers(s, Polygon, x);
    OfKindMembers(s, Box, x);
    OfKindMembers(s, Path, x);
  }

  /** A shape that some rule records. */
  predicate Caught(x: Shape, purpose: string, skipLabels: bool) {
    || (PinPurpose(purpose) && x.kind == Box)
    || (!skipLabels && x.kind == Text)
    || NetPurpose(purpose)
    || (DrawingPurpose(purpose) && Drawn(x.kind))
  }

  /** A shape recorded in a bucket is a caught shape of the list. */
  lemma NonEmptyHasCaught(s: seq<Shape>, purpose: string, skipLabels: bool)
    requires !ClassifyCell(s, purpose, skipLabels).IsEmpty()
    ensures exists x :: x in s && Caught(x, purpose, skipLabels)
  {
    var b := ClassifyCell(s, purpose, skipLabels);
    var x: Shape;
    if b.polygons != [] { x := b.polygons[0]; }
    else if b.paths != [] { x := b.paths[0]; }
    else if b.labels != [] { x := b.labels[0]; }
    else if b.boxes != [] { x := b.boxes[0]; }
    else if b.pins != [] {
      BoxCentresOfBoxes(s);
      x := OfKind(s, Box)[0];
      OfKindMembers(s, Box, x);
    }
    else { x := b.nets[0]; }
    MembershipRules(s, purpose, skipLabels, x);
    assert x in s && Caught(x, purpose, skipLabels);
  }

  /** A caught shape of the list is recorded somewhere in the bucket. */
  lemma CaughtMakesNonEmpty(s: seq<Shape>, purpose: string, skipLabels: bool, x: Shape)
    requires x in s && Caught(x, purpose, skipLabels)
    ensures !ClassifyCell(s, purpose, skipLabels).IsEmpty()
  {
    MembershipRules(s, purpose, skipLabels, x);
    if PinPurpose(purpose) && x.kind == Box {
      OfKindMembers(s, Box, x);
      BoxCentresOfBoxes(s);
    }
  }

  /** A classified bucket is empty exactly when no rule records any shape of the list. */
  lemma ClassifiedEmptyIff(s: seq<Shape>, purpose: string, skipLabels: bool)
    ensures ClassifyCell(s, purpose, skipLabels).IsEmpty()
            <==> forall x :: x in s ==> !Caught(x, purpose, skipLabels)
  {
    if !ClassifyCell(s, purpose, skipLabels).IsEmpty() {
      NonEmptyHasCaught(s, purpose, skipLabels);
    }
    forall x | x in s && Caught(x, purpose, skipLabels)
      ensures !ClassifyCell(s, purpose, skipLabels).IsEmpty()
    {
      CaughtMakesNonEmpty(s, purpose, skipLabels, x);
    }
  }

  /** `_update_shapes` over the enumerated cells: a bucket per cell in
      enumeration order, kept only for the first cell of each name. */
  function ClassifyLayout(cells: seq<Cell>, index: int, dataType: int, purpose: string, skipLabels: bool)
    : map<string, CellShapes>
  {
    if cells == [] then map[]
    else
      var m := ClassifyLayout(cells[..|cells| - 1], index, dataType, purpose, skipLabels);
      var c := cells[|cells| - 1];
      if c.name in m then m
      else m[c.name := ClassifyCell(ShapesOn(c, index, dataType), purpose, skipLabels)]
  }

  /** Every enumerated cell has a bucket, also a cell with no shapes on the
      layer, and there is no other bucket. */
  lemma {:induction false} ClassifyLayoutKeys(cells: seq<Cell>, index: int, dataType: int, purpose: string, skipLabels: bool)
    ensures ClassifyLayout(cells, index, dataType, purpose, skipLabels).Keys == set c | c in cells :: c.name
  {
    if cells != [] {
      var init := cells[..|cells| - 1];
      ClassifyLayoutKeys(init, index, dataType, purpose, skipLabels);
      assert cells == init + [cells[|cells| - 1]];
      assert (set c | c in cells :: c.name) == (set c | c in init :: c.name) + {cells[|cells| - 1].name};
    }
  }

  /** The bucket stored under a name is the one classified from the first
      cell of that name; later cells of the same name are discarded. */
  lemma {:induction false} ClassifyLayoutFirst(cells: seq<Cell>, index: int, dataType: int, purpose: string, skipLabels: bool, i: nat)
    requires i < |cells|
    requires forall j :: 0 <= j < i ==> cells[j].name != cells[i].name
    ensures var m := ClassifyLayout(cells, index, dataType, purpose, skipLabels);
      cells[i].name in m && m[cells[i].name] == ClassifyCell(ShapesOn(cells[i], index, dataType), purpose, skipLabels)
  {
    var init := cells[..|cells| - 1];
    ClassifyLayoutKeys(init, index, dataType, purpose, skipLabels);
    if i < |cells| - 1 {
      ClassifyLayoutFirst(init, index, dataType, purpose, skipLabels, i);
    } else {
      assert forall c :: c in init ==> c.name != cells[i].name;
    }
  }

  /** The classification of a layout is empty exactly when the layout has no
      cells: only then does a read of the cache classify again. */
  lemma ClassifyLayoutEmptyIff(cells: seq<Cell>, index: int, dataType: int, purpose: string, skipLabels: bool)
    ensures ClassifyLayout(cells, index, dataType, purpose, skipLabels) == map[] <==> cells == []
  {
    ClassifyLayoutKeys(cells, index, dataType, purpose, skipLabels);
    if cells != [] {
      assert cells[0].name in set c | c in cells :: c.name;
    }
  }

  /** One cell "TOP" with one box centred at (5, 5) on layer 5/0 of purpose "Pin". */
  lemma TopPinExample()
    ensures var m := ClassifyLayout([Cell("TOP", map[(5, 0) := [Shape(0, Box, Point(5, 5))]])], 5, 0, "Pin", true);
      "TOP" in m && m["TOP"].pins == [Point(5, 5)] && m["TOP"].labels == [] && !m["TOP"].IsEmpty()
  {
    assert Lower("Pin") == "pin";
    var s := [Shape(0, Box, Point(5, 5))];
    assert s[..0] == [];
    assert BoxCentres(s) == [Point(5, 5)];
  }

  /** The pin loop: the centre of every box shape, in order; polygons are passed over. */
  method CollectPins(shapeList: seq<Shape>) returns (pins: seq<Point>)
    ensures pins == BoxCentres(shapeList)
  {
    pins := [];
    for j := 0 to |shapeList|
      invariant pins == BoxCentres(shapeList[..j])
    {
      assert shapeList[..j + 1][..j] == shapeList[..j];
      var shape := shapeList[j];
      if shape.kind == Box {
        pins := pins + [shape.center];
      }
    }
    assert shapeList[..|shapeList|] == shapeList;
  }

  /** The label loop: every text shape, in order. */
  method CollectLabels(shapeList: seq<Shape>) returns (labels: seq<Shape>)
    ensures labels == OfKind(shapeList, Text)
  {
    labels := [];
    for j := 0 to |shapeList|
      invariant labels == OfKind(shapeList[..j], Text)
    {
      assert shapeList[..j + 1][..j] == shapeList[..j];
      var shape := shapeList[j];
      if shape.kind == Text {
        labels := labels + [shape];
      }
    }
    assert shapeList[..|shapeList|] == shapeList;
  }

  /** The drawing loop: each polygon, box and path shape to its own list, in
      order; other shapes are dropped. */
  method RouteDrawn(shapeList: seq<Shape>) returns (polygons: seq<Shape>, boxes: seq<Shape>, paths: seq<Shape>)
    ensures polygons == OfKind(shapeList, Polygon)
    ensures boxes == OfKind(shapeList, Box)
    ensures paths == OfKind(shapeList, Path)
  {
    polygons, boxes, paths := [], [], [];
    for j := 0 to |shapeList|
      invariant polygons == OfKind(shapeList[..j], Polygon)
      invariant boxes == OfKind(shapeList[..j], Box)
      invariant paths == OfKind(shapeList[..j], Path)
    {
      assert shapeList[..j + 1][..j] == shapeList[..j];
      var shape := shapeList[j];
      if shape.kind == Polygon {
        polygons := polygons + [shape];
      } else if shape.kind == Box {
        boxes := boxes + [shape];
      } else if shape.kind == Path {
        paths := paths + [shape];
      }
    }
    assert shapeList[..|shapeList|] == shapeList;
  }

  /** The bucket of one cell: the four rules applied in turn to its shape list. */
  method FillBucket(shapeList: seq<Shape>, purpose: string, skipLabels: bool) returns (cell: CellShapes)
    ensures cell == ClassifyCell(shapeList, purpose, skipLabels)
  {
    var polygons, paths, labels, boxes, pins, nets := [], [], [], [], [], [];
    if PinPurpose(purpose) {
      pins := CollectPins(shapeList);
    }
    if !skipLabels {
      labels := CollectLabels(shapeList);
    }
    if NetPurpose(purpose) {
      for j := 0 to |shapeList|
        invariant nets == shapeList[..j]
      {
        nets := nets + [shapeList[j]];
      }
    }
    if DrawingPurpose(purpose) {
      polygons, boxes, paths := RouteDrawn(shapeList);
    }
    cell := CellShapes(polygons, paths, labels, boxes, pins, nets);
  }
}
