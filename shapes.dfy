/**
 * The shapes of the page: the rectangle record, the partial record an
 * external change hands in, and the pure operations the handlers apply to
 * the shape table (merge a patch, translate, move every selected shape,
 * build the rectangle a canvas click creates).
 */
module Shapes {
  import opened Wrappers
  import opened Vectors
  import opened Viewport

  datatype Shape = Shape(
    id: string,
    parentId: string,
    name: string,
    childIndex: real,
    kind: string,
    point: Vec,
    rotation: real,
    size: Vec,
    text: string)

  /** A partial shape: the id of the shape to change and the fields it carries. */
  datatype ShapePatch = ShapePatch(
    id: string,
    parentId: Option<string>,
    name: Option<string>,
    childIndex: Option<real>,
    kind: Option<string>,
    point: Option<Vec>,
    rotation: Option<real>,
    size: Option<Vec>,
    text: Option<string>)

  type ShapeTable = map<string, Shape>

  /** Every shape is stored under its own id. */
  ghost predicate IdsMatchKeys(shapes: ShapeTable) {
    forall k :: k in shapes ==> shapes[k].id == k
  }

  ghost predicate NoDuplicates(ids: seq<string>) {
    forall i, j :: 0 <= i < j < |ids| ==> ids[i] != ids[j]
  }

  function Pick<T>(field: Option<T>, current: T): T {
    match field
    case Some(v) => v
    case None => current
  }

  /** `Object.assign(shape, patch)`: every field the patch carries overwrites the shape's; the others stay. */
  function Merge(s: Shape, p: ShapePatch): (r: Shape)
    ensures r.id == p.id
    ensures p.parentId.Some? ==> r.parentId == p.parentId.value
    ensures p.name.Some? ==> r.name == p.name.value
    ensures p.childIndex.Some? ==> r.childIndex == p.childIndex.value
    ensures p.kind.Some? ==> r.kind == p.kind.value
    ensures p.point.Some? ==> r.point == p.point.value
    ensures p.rotation.Some? ==> r.rotation == p.rotation.value
    ensures p.size.Some? ==> r.size == p.size.value
    ensures p.text.Some? ==> r.text == p.text.value
  {
    Shape(p.id,
          Pick(p.parentId, s.parentId),
          Pick(p.name, s.name),
          Pick(p.childIndex, s.childIndex),
          Pick(p.kind, s.kind),
          Pick(p.point, s.point),
          Pick(p.rotation, s.rotation),
          Pick(p.size, s.size),
          Pick(p.text, s.text))
  }

  /** The patch that carries every field of `t`. */
  function FullPatch(t: Shape): ShapePatch {
    ShapePatch(t.id, Some(t.parentId), Some(t.name), Some(t.childIndex), Some(t.kind),
               Some(t.point), Some(t.rotation), Some(t.size), Some(t.text))
  }

  /** The patch that carries no field. */
  function EmptyPatch(id: string): ShapePatch {
    ShapePatch(id, None, None, None, None, None, None, None, None)
  }

  /** Merging a patch that carries every field of `t` gives `t`, whatever the shape was. */
  lemma MergeFullPatch(s: Shape, t: Shape)
    ensures Merge(s, FullPatch(t)) == t
  {
  }

  /** Merging a patch with no fields under the shape's own id changes nothing. */
  lemma MergeEmptyPatch(s: Shape)
    ensures Merge(s, EmptyPatch(s.id)) == s
  {
  }

  /** Merging the same patch twice is merging it once. */
  lemma MergeIdempotent(s: Shape, p: ShapePatch)
    ensures Merge(Merge(s, p), p) == Merge(s, p)
  {
  }

  /** The patch carries only the shape's own id and values the shape already has. */
  predicate AgreesWith(p: ShapePatch, s: Shape) {
    && p.id == s.id
    && (p.parentId.Some? ==> p.parentId.value == s.parentId)
    && (p.name.Some? ==> p.name.value == s.name)
    && (p.childIndex.Some? ==> p.childIndex.value == s.childIndex)
    && (p.kind.Some? ==> p.kind.value == s.kind)
    && (p.point.Some? ==> p.point.value == s.point)
    && (p.rotation.Some? ==> p.rotation.value == s.rotation)
    && (p.size.Some? ==> p.size.value == s.size)
    && (p.text.Some? ==> p.text.value == s.text)
  }

  /** A merge changes nothing exactly when the patch agrees with the shape. */
  lemma MergeNoOpIff(s: Shape, p: ShapePatch)
    ensures Merge(s, p) == s <==> AgreesWith(p, s)
  {
  }

  /** A merge leaves every field the patch does not carry as it was. */
  lemma MergeKeepsAbsentFields(s: Shape, p: ShapePatch)
    ensures p.parentId.None? ==> Merge(s, p).parentId == s.parentId
    ensures p.name.None? ==> Merge(s, p).name == s.name
    ensures p.childIndex.None? ==> Merge(s, p).childIndex == s.childIndex
    ensures p.kind.None? ==> Merge(s, p).kind == s.kind
    ensures p.point.None? ==> Merge(s, p).point == s.point
    ensures p.rotation.None? ==> Merge(s, p).rotation == s.rotation
    ensures p.size.None? ==> Merge(s, p).size == s.size
    ensures p.text.None? ==> Merge(s, p).text == s.text
  {
  }

  /** The shape moved by `delta`; nothing else about it changes. */
  function Translate(s: Shape, delta: Vec): (r: Shape)
    ensures r == s.(point := r.point)
    ensures Sub(r.point, s.point) == delta
  {
    s.(point := Add(s.point, delta))
  }

  /**
   * The drag step: move the shapes named by `ids`, one after the other, by
   * `delta`. `None` when an id names no shape: the source throws on that
   * id; the model drops the update instead.
   */
  function MoveAll(shapes: ShapeTable, ids: seq<string>, delta: Vec): (r: Option<ShapeTable>)
    ensures r.Some? <==> forall i :: 0 <= i < |ids| ==> ids[i] in shapes
    ensures r.Some? ==> r.value.Keys == shapes.Keys
    ensures r.Some? && IdsMatchKeys(shapes) ==> IdsMatchKeys(r.value)
    decreases |ids|
  {
    if ids == [] then Some(shapes)
    else if ids[0] !in shapes then None
    else MoveAll(shapes[ids[0] := Translate(shapes[ids[0]], delta)], ids[1..], delta)
  }

  /**
   * With all ids present and none repeated, every selected shape is moved by
   * `delta` exactly once and every other shape is left as it was.
   */
  lemma {:induction false} MoveAllMovesSelected(shapes: ShapeTable, ids: seq<string>, delta: Vec)
    requires forall i :: 0 <= i < |ids| ==> ids[i] in shapes
    requires NoDuplicates(ids)
    ensures MoveAll(shapes, ids, delta).Some?
    ensures forall k :: k in shapes ==>
              MoveAll(shapes, ids, delta).value[k] == if k in ids then Translate(shapes[k], delta) else shapes[k]
    decreases |ids|
  {
    if ids != [] {
      var h := ids[0];
      var next := shapes[h := Translate(shapes[h], delta)];
      var rest := ids[1..];
      assert forall i :: 0 <= i < |rest| ==> rest[i] == ids[i + 1];
      MoveAllMovesSelected(next, rest, delta);
      forall k | k in shapes
        ensures MoveAll(shapes, ids, delta).value[k] == if k in ids then Translate(shapes[k], delta) else shapes[k]
      {
        assert k in ids <==> k == h || k in rest;
        assert forall j :: 0 <= j < |rest| ==> rest[j] != h;
      }
    }
  }

  /** The only id moved is the one selected. */
  lemma MoveSingle(shapes: ShapeTable, target: string, delta: Vec)
    requires target in shapes
    ensures MoveAll(shapes, [target], delta) == Some(shapes[target := Translate(shapes[target], delta)])
  {
    assert [target][1..] == [];
  }

  /** Half the default rectangle size: the offset from the click to the new shape's corner. */
  const HalfSize: Vec := Vec(50.0, 50.0)
  const DefaultSize: Vec := Vec(100.0, 100.0)

  /** The centre of a shape. */
  function Center(s: Shape): Vec {
    Add(s.point, Div(s.size, 2.0))
  }

  /**
   * The rectangle a click on the empty canvas creates: a 100 by 100
   * rectangle centred on the click's page point under the camera `cam`,
   * with draw order `count`.
   */
  function NewRectangle(id: string, click: Vec, cam: Camera, count: nat): (r: Shape)
    requires cam.zoom != 0.0
    ensures r.id == id && r.kind == "rectangle" && r.parentId == "page1"
    ensures r.size == DefaultSize && r.rotation == 0.0 && r.childIndex == count as real
    ensures Center(r) == ScreenToPage(click, cam.point, cam.zoom)
    ensures PageToScreen(Center(r), cam.point, cam.zoom) == click
  {
    var point := Sub(Div(click, cam.zoom), cam.point);
    ScreenToPageRoundTrip(click, cam.point, cam.zoom);
    Shape(id, "page1", "Rectangle", count as real, "rectangle", Sub(point, HalfSize), 0.0, DefaultSize, "Slob Me")
  }

  /** The rectangle the page starts with. */
  function SeedShape(): (s: Shape)
    ensures s.id == "rect1" && s.point == Zero && s.size == DefaultSize
  {
    Shape("rect1", "page1", "Rectangle", 1.0, "rectangle", Zero, 0.0, DefaultSize, "Slob on My Knob")
  }
}
