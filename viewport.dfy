/**
 * The viewport controller: the camera (page-space offset and zoom), the
 * screen-to-page transform, and the pan and pinch arithmetic of the pan and
 * pinch handlers.
 */
module Viewport {
  import opened Vectors

  datatype Camera = Camera(point: Vec, zoom: real)

  const MinZoom: real := 0.15
  const MaxZoom: real := 5.0

  predicate InZoomRange(z: real) {
    MinZoom <= z <= MaxZoom
  }

  /** The camera the page starts with: no offset, zoom 1. */
  function InitialCamera(): (c: Camera)
    ensures InZoomRange(c.zoom)
  {
    Camera(Zero, 1.0)
  }

  /** Screen point to page point: the screen point scaled by the inverse zoom, minus the camera offset. */
  function ScreenToPage(p: Vec, cameraPoint: Vec, zoom: real): Vec
    requires zoom != 0.0
  {
    Sub(Div(p, zoom), cameraPoint)
  }

  /** The inverse transform, page point back to screen point. */
  function PageToScreen(q: Vec, cameraPoint: Vec, zoom: real): Vec {
    Mul(Add(q, cameraPoint), zoom)
  }

  lemma ScreenToPageRoundTrip(p: Vec, cameraPoint: Vec, zoom: real)
    requires zoom != 0.0
    ensures PageToScreen(ScreenToPage(p, cameraPoint, zoom), cameraPoint, zoom) == p
  {
  }

  lemma PageToScreenRoundTrip(q: Vec, cameraPoint: Vec, zoom: real)
    requires zoom != 0.0
    ensures ScreenToPage(PageToScreen(q, cameraPoint, zoom), cameraPoint, zoom) == q
  {
  }

  /** `Math.max(lo, Math.min(hi, n))`. */
  function Clamp(n: real, lo: real, hi: real): (r: real)
    ensures lo <= hi ==> lo <= r <= hi
    ensures lo <= n <= hi ==> r == n
    ensures n < lo ==> r == lo
    ensures lo <= hi < n ==> r == hi
  {
    var m := if hi < n then hi else n;
    if lo > m then lo else m
  }

  /**
   * Pan: the camera offset moves against the gesture delta, scaled by the
   * inverse of the current zoom; the zoom is kept.
   */
  function Pan(c: Camera, delta: Vec): (r: Camera)
    requires c.zoom != 0.0
    ensures r.zoom == c.zoom
    ensures Add(r.point, Div(delta, c.zoom)) == c.point
  {
    Camera(Sub(c.point, Div(delta, c.zoom)), c.zoom)
  }

  /** After a pan, the page point under every screen point has moved by the delta over the zoom. */
  lemma PanShiftsView(c: Camera, delta: Vec, p: Vec)
    requires c.zoom != 0.0
    ensures ScreenToPage(p, Pan(c, delta).point, c.zoom)
         == Add(ScreenToPage(p, c.point, c.zoom), Div(delta, c.zoom))
  {
  }

  /** Panning by a delta and then by its negation restores the camera. */
  lemma PanUndo(c: Camera, delta: Vec)
    requires c.zoom != 0.0
    ensures Pan(Pan(c, delta), Neg(delta)) == c
  {
  }

  /** The zoom a pinch asks for, clamped to [MinZoom, MaxZoom]. */
  function PinchZoom(zoom: real, dz: real): (r: real)
    ensures InZoomRange(r)
    ensures InZoomRange(zoom) && dz == 0.0 ==> r == zoom
    ensures zoom > 0.0 && dz >= 0.0 ==> r <= zoom || r == MinZoom
  {
    Clamp(zoom - (dz / 2.0) * zoom, MinZoom, MaxZoom)
  }

  /**
   * Pinch: the zoom becomes `PinchZoom`, and the offset is panned by the x
   * and y of the delta and then corrected by the difference between the
   * pinch point's page point at the new and at the old zoom. Both fields
   * come out of one computation.
   */
  function Pinch(c: Camera, point: Vec, delta: Vec3): (r: Camera)
    requires c.zoom != 0.0
    ensures InZoomRange(r.zoom)
    ensures r.zoom == PinchZoom(c.zoom, delta.z)
    ensures delta == Vec3(0.0, 0.0, 0.0) && InZoomRange(c.zoom) ==> r == c
  {
    var nextZoom := PinchZoom(c.zoom, delta.z);
    var nextPoint := Add(Sub(c.point, Div(Xy(delta), c.zoom)),
                         Sub(ScreenToPage(point, c.point, nextZoom),
                             ScreenToPage(point, c.point, c.zoom)));
    Camera(nextPoint, nextZoom)
  }

  /**
   * The focal property of a pinch: the page point under the pinch point is
   * the same before and after, up to the pan part of the delta.
   */
  lemma PinchKeepsFocalPoint(c: Camera, point: Vec, delta: Vec3)
    requires c.zoom != 0.0
    ensures ScreenToPage(point, Pinch(c, point, delta).point, Pinch(c, point, delta).zoom)
         == Add(ScreenToPage(point, c.point, c.zoom), Div(Xy(delta), c.zoom))
  {
  }

  /** A pinch without pan component keeps the pinch point fixed on the page. */
  lemma PinchWithoutPanIsStationary(c: Camera, point: Vec, dz: real)
    requires c.zoom != 0.0
    ensures ScreenToPage(point, Pinch(c, point, Vec3(0.0, 0.0, dz)).point, Pinch(c, point, Vec3(0.0, 0.0, dz)).zoom)
         == ScreenToPage(point, c.point, c.zoom)
  {
    PinchKeepsFocalPoint(c, point, Vec3(0.0, 0.0, dz));
  }

  /** A pinch at the screen origin with no pan component changes the zoom only. */
  lemma PinchAtOriginWithoutPan(c: Camera, dz: real)
    requires c.zoom != 0.0
    ensures Pinch(c, Zero, Vec3(0.0, 0.0, dz)) == Camera(c.point, PinchZoom(c.zoom, dz))
  {
    var z := PinchZoom(c.zoom, dz);
    assert ScreenToPage(Zero, c.point, z) == Neg(c.point);
    assert ScreenToPage(Zero, c.point, c.zoom) == Neg(c.point);
    assert Div(Zero, c.zoom) == Zero;
  }
}
