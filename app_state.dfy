/**
 * The application state hook: the pointer status, the page's shape table,
 * the selection, the hovered shape and the camera, with one method per
 * event handler. Each handler updates the fields in place.
 */
module AppState {
  import opened Wrappers
  import opened Vectors
  import opened Viewport
  import opened Shapes

  /** The pointer phase that tells a click from a drag. */
  datatype Status = Idle | Pointing | Dragging

  class App {
    var status: Status
    var shapes: ShapeTable
    var selectedIds: seq<string>
    var hoveredId: Option<string>
    var camera: Camera

    /** The zoom stays in range, the selection repeats no id, and each shape sits under its own id. */
    ghost predicate Valid()
      reads this
    {
      && InZoomRange(camera.zoom)
      && NoDuplicates(selectedIds)
      && IdsMatchKeys(shapes)
    }

    /** One page holding the seed rectangle, nothing selected, the initial camera. */
    constructor ()
      ensures Valid()
      ensures status == Idle && selectedIds == [] && hoveredId == None
      ensures shapes == map["rect1" := SeedShape()] && camera == InitialCamera()
    {
      status := Idle;
      shapes := map["rect1" := SeedShape()];
      selectedIds := [];
      hoveredId := None;
      camera := InitialCamera();
    }

    method HandlePan(delta: Vec)
      requires Valid()
      modifies this
      ensures Valid()
      ensures camera == Pan(old(camera), delta)
      ensures status == old(status) && shapes == old(shapes)
      ensures selectedIds == old(selectedIds) && hoveredId == old(hoveredId)
    {
      var point, zoom := camera.point, camera.zoom;
      var newPoint := Sub(point, Div(delta, zoom));
      camera := camera.(point := newPoint);
    }

    method HandlePinch(point: Vec, delta: Vec3)
      requires Valid()
      modifies this
      ensures Valid()
      ensures camera == Pinch(old(camera), point, delta)
      ensures status == old(status) && shapes == old(shapes)
      ensures selectedIds == old(selectedIds) && hoveredId == old(hoveredId)
    {
      var nextZoom := Clamp(camera.zoom - (delta.z / 2.0) * camera.zoom, MinZoom, MaxZoom);
      var nextPoint := Add(Sub(camera.point, Div(Xy(delta), camera.zoom)),
                           Sub(ScreenToPage(point, camera.point, nextZoom),
                               ScreenToPage(point, camera.point, camera.zoom)));
      camera := Camera(nextPoint, nextZoom);
    }

    method HandleShapePoint(target: string)
      requires Valid()
      modifies this
      ensures Valid()
      ensures status == Pointing && selectedIds == [target]
      ensures shapes == old(shapes) && camera == old(camera) && hoveredId == old(hoveredId)
    {
      status := Pointing;
      selectedIds := [target];
    }

    /**
     * A click on the empty canvas. With nothing selected it adds the
     * rectangle built from `snapshotCamera` and `snapshotCount` under
     * `newId` (an existing shape with that id is replaced); otherwise it
     * clears the selection and returns to idle. The camera and the shape
     * count are those of the snapshot the handler closed over, which need
     * not be the live ones.
     */
    method HandleCanvasPoint(click: Vec, snapshotCamera: Camera, snapshotCount: nat, newId: string)
      requires Valid()
      requires snapshotCamera.zoom != 0.0
      modifies this
      ensures Valid()
      ensures old(selectedIds) == [] ==>
                && shapes == old(shapes)[newId := NewRectangle(newId, click, snapshotCamera, snapshotCount)]
                && status == old(status) && selectedIds == []
      ensures old(selectedIds) == [] && newId !in old(shapes) ==>
                shapes.Keys == old(shapes).Keys + {newId} && |shapes| == |old(shapes)| + 1
      ensures old(selectedIds) != [] ==> shapes == old(shapes) && status == Idle && selectedIds == []
      ensures camera == old(camera) && hoveredId == old(hoveredId)
    {
      if |selectedIds| == 0 {
        var newShape := NewRectangle(newId, click, snapshotCamera, snapshotCount);
        shapes := shapes[newShape.id := newShape];
      } else {
        status := Idle;
        selectedIds := [];
      }
    }

    /**
     * The canvas click read against the live camera and shape count: the
     * new rectangle is centred under the click and its draw order is the
     * number of shapes before it.
     */
    method HandleCanvasPointLive(click: Vec, newId: string)
      requires Valid()
      modifies this
      ensures Valid()
      ensures old(selectedIds) == [] ==>
                && shapes == old(shapes)[newId := NewRectangle(newId, click, camera, |old(shapes)|)]
                && Center(shapes[newId]) == ScreenToPage(click, camera.point, camera.zoom)
                && shapes[newId].childIndex == |old(shapes)| as real
                && status == old(status) && selectedIds == []
      ensures old(selectedIds) != [] ==> shapes == old(shapes) && status == Idle && selectedIds == []
      ensures camera == old(camera) && hoveredId == old(hoveredId)
    {
      HandleCanvasPoint(click, camera, |shapes|, newId);
    }

    /**
     * Pointer move: pointing becomes dragging; while dragging, every
     * selected shape moves by `delta` (in page units, not scaled by the
     * zoom). If a selected id names no shape the source throws; the model
     * drops the update instead.
     */
    method HandlePointerMove(delta: Vec)
      requires Valid()
      modifies this
      ensures Valid()
      ensures status == (if old(status) == Idle then Idle else Dragging)
      ensures shapes == (if old(status) != Idle && MoveAll(old(shapes), selectedIds, delta).Some?
                         then MoveAll(old(shapes), selectedIds, delta).value
                         else old(shapes))
      ensures selectedIds == old(selectedIds) && camera == old(camera) && hoveredId == old(hoveredId)
    {
      if status == Pointing {
        status := Dragging;
      }
      if status == Dragging {
        var draft := shapes;
        var i := 0;
        while i < |selectedIds|
          invariant 0 <= i <= |selectedIds|
          invariant MoveAll(shapes, selectedIds, delta) == MoveAll(draft, selectedIds[i..], delta)
        {
          var id := selectedIds[i];
          assert selectedIds[i..][0] == id && selectedIds[i..][1..] == selectedIds[i + 1..];
          if id !in draft {
            // the source throws here; the model drops the update instead
            assert MoveAll(draft, selectedIds[i..], delta) == None;
            return;
          }
          draft := draft[id := Translate(draft[id], delta)];
          i := i + 1;
        }
        assert selectedIds[i..] == [];
        shapes := draft;
      }
    }

    method HandlePointerUp()
      requires Valid()
      modifies this
      ensures Valid()
      ensures status == Idle
      ensures shapes == old(shapes) && selectedIds == old(selectedIds)
      ensures camera == old(camera) && hoveredId == old(hoveredId)
    {
      status := Idle;
    }

    method HandleShapeHover(target: string)
      requires Valid()
      modifies this
      ensures Valid()
      ensures hoveredId == Some(target)
      ensures status == old(status) && shapes == old(shapes)
      ensures selectedIds == old(selectedIds) && camera == old(camera)
    {
      hoveredId := Some(target);
    }

    method HandleShapeUnhover()
      requires Valid()
      modifies this
      ensures Valid()
      ensures hoveredId == None
      ensures status == old(status) && shapes == old(shapes)
      ensures selectedIds == old(selectedIds) && camera == old(camera)
    {
      hoveredId := None;
    }

    /**
     * An external change: the patch's fields are merged into the shape with
     * the patch's id; a patch for an unknown id changes nothing.
     */
    method HandleShapeChange(patch: ShapePatch)
      requires Valid()
      modifies this
      ensures Valid()
      ensures patch.id in old(shapes) ==> shapes == old(shapes)[patch.id := Merge(old(shapes)[patch.id], patch)]
      ensures patch.id !in old(shapes) ==> shapes == old(shapes)
      ensures status == old(status) && selectedIds == old(selectedIds)
      ensures camera == old(camera) && hoveredId == old(hoveredId)
    {
      if patch.id in shapes {
        shapes := shapes[patch.id := Merge(shapes[patch.id], patch)];
      }
    }
  }

  /**
   * Point a shape, move by `delta`, release: the shape ends `delta` further
   * on, every other shape is where it was, the status is idle and the shape
   * stays selected.
   */
  method DragShape(app: App, target: string, delta: Vec)
    requires app.Valid() && target in app.shapes
    modifies app
    ensures app.Valid()
    ensures app.shapes == old(app.shapes)[target := Translate(old(app.shapes)[target], delta)]
    ensures app.status == Idle && app.selectedIds == [target]
    ensures app.camera == old(app.camera) && app.hoveredId == old(app.hoveredId)
  {
    app.HandleShapePoint(target);
    MoveSingle(app.shapes, target, delta);
    app.HandlePointerMove(delta);
    app.HandlePointerUp();
  }

  /** A click at (200, 200) on the fresh page creates a rectangle at (150, 150), drawn after the seed. */
  method ClickOnFreshPage() returns (point: Vec, childIndex: real, count: nat)
    ensures point == Vec(150.0, 150.0) && childIndex == 1.0 && count == 2
  {
    var app := new App();
    assert "shape2" != "rect1" by { assert "shape2"[0] != "rect1"[0]; }
    assert Div(Vec(200.0, 200.0), 1.0) == Vec(200.0, 200.0);
    assert Div(DefaultSize, 2.0) == HalfSize;
    app.HandleCanvasPointLive(Vec(200.0, 200.0), "shape2");
    point := app.shapes["shape2"].point;
    childIndex := app.shapes["shape2"].childIndex;
    count := |app.shapes|;
  }

  /** A pinch at the origin with zoom delta 0.2 on the initial camera zooms from 1 to 0.9 and keeps the offset. */
  lemma PinchAtOriginOnInitialCamera()
    ensures Pinch(InitialCamera(), Zero, Vec3(0.0, 0.0, 0.2)) == Camera(Zero, 0.9)
  {
    PinchAtOriginWithoutPan(InitialCamera(), 0.2);
    assert PinchZoom(1.0, 0.2) == 0.9 by {
      assert 1.0 - (0.2 / 2.0) * 1.0 == 0.9;
    }
  }

  /**
   * The canvas click as the handler is wired: it always reads the state it
   * was created with, the initial camera and a count of one shape.
   */
  method HandleCanvasPointAsWired(app: App, click: Vec, newId: string)
    requires app.Valid()
    modifies app
    ensures app.Valid()
    ensures old(app.selectedIds) == [] ==>
              && app.shapes == old(app.shapes)[newId := NewRectangle(newId, click, InitialCamera(), 1)]
              && app.status == old(app.status) && app.selectedIds == []
    ensures old(app.selectedIds) == [] && newId !in old(app.shapes) ==>
              app.shapes.Keys == old(app.shapes).Keys + {newId} && |app.shapes| == |old(app.shapes)| + 1
    ensures old(app.selectedIds) != [] ==> app.shapes == old(app.shapes) && app.status == Idle && app.selectedIds == []
    ensures app.camera == old(app.camera) && app.hoveredId == old(app.hoveredId)
  {
    app.HandleCanvasPoint(click, InitialCamera(), 1, newId);
  }

  /** After a pan by (-100, 0) from the initial camera, the click at (200, 200) is over page point (100, 200). */
  lemma PageUnderClickAfterPan()
    ensures ScreenToPage(Vec(200.0, 200.0), Pan(InitialCamera(), Vec(-100.0, 0.0)).point, Pan(InitialCamera(), Vec(-100.0, 0.0)).zoom)
         == Vec(100.0, 200.0)
  {
    assert Pan(InitialCamera(), Vec(-100.0, 0.0)) == Camera(Vec(100.0, 0.0), 1.0) by {
      assert InitialCamera() == Camera(Zero, 1.0);
      assert Div(Vec(-100.0, 0.0), 1.0) == Vec(-100.0, 0.0);
    }
    assert Div(Vec(200.0, 200.0), 1.0) == Vec(200.0, 200.0);
  }

  /**
   * Read against the initial snapshot, the click at (200, 200) makes a
   * rectangle centred on page point (200, 200) whatever the live camera
   * (after the pan above the cursor is over (100, 200)), and its draw order
   * 1 repeats the seed's.
   */
  lemma StaleSnapshotMisplacesShape()
    ensures Center(NewRectangle("n", Vec(200.0, 200.0), InitialCamera(), 1)) == Vec(200.0, 200.0)
    ensures NewRectangle("n", Vec(200.0, 200.0), InitialCamera(), 1).childIndex == SeedShape().childIndex
  {
    assert InitialCamera() == Camera(Zero, 1.0);
    assert Div(Vec(200.0, 200.0), 1.0) == Vec(200.0, 200.0);
  }
}
