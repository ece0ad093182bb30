/** The layout arithmetic of CSAnimationRunner.py: the target values the
    positioning and sizing helpers of an animated input compute before they
    declare their animation. Geometry is a frame, a bounds size and a
    position, as Core Animation reports them for the input's layer. */
module Layout {
  import opened Base

  datatype Point = Point(x: real, y: real)

  datatype Size = Size(width: real, height: real)

  /** A rectangle with its origin at the bottom-left corner (y grows upward). */
  datatype Rect = Rect(origin: Point, size: Size) {
    function MinX(): real { origin.x }
    function MaxX(): real { origin.x + size.width }
    function MinY(): real { origin.y }
    function MaxY(): real { origin.y + size.height }
    function MidX(): real { origin.x + size.width / 2.0 }
    function MidY(): real { origin.y + size.height / 2.0 }
  }

  /** An input's animation layer: its frame, its bounds size and its position. */
  datatype Geometry = Geometry(frame: Rect, bounds: Size, position: Point)

  /** The layer after its position is set to `p`: the frame moves with the
      position, keeping its size. */
  function Translated(g: Geometry, p: Point): Geometry {
    g.(frame := Rect(Point(g.frame.origin.x + (p.x - g.position.x), g.frame.origin.y + (p.y - g.position.y)),
                     g.frame.size),
       position := p)
  }

  // ---------------------------------------------------------------------
  // Positioning

  /** `adjust_coordinates`: the offset of a point from the frame's origin. */
  function AdjustCoordinates(g: Geometry, x: real, y: real): (p: Point)
    ensures g.frame.origin.x + p.x == x && g.frame.origin.y + p.y == y
  {
    Point(x - g.frame.origin.x, y - g.frame.origin.y)
  }

  /** `moveTo`: the position that brings the frame's origin to (x, y). */
  function MoveToTarget(g: Geometry, x: real, y: real): (p: Point)
    ensures Translated(g, p).frame.origin == Point(x, y)
    ensures Translated(g, p).frame.size == g.frame.size
  {
    var off := AdjustCoordinates(g, x, y);
    Point(g.position.x + off.x, g.position.y + off.y)
  }

  /** `moveX`: the position's x coordinate moved by `dx`. */
  function MoveXTarget(g: Geometry, dx: real): (x: real)
    ensures Translated(g, Point(x, g.position.y)).frame.origin.x == g.frame.origin.x + dx
  {
    g.position.x + dx
  }

  /** `moveY`: the position's y coordinate moved by `dy`. */
  function MoveYTarget(g: Geometry, dy: real): (y: real)
    ensures Translated(g, Point(g.position.x, y)).frame.origin.y == g.frame.origin.y + dy
  {
    g.position.y + dy
  }

  /** `move` as written: the current position plus the delta is handed to
      `moveTo`, which reads its arguments as an origin. */
  function MoveTarget(g: Geometry, dx: real, dy: real): (p: Point)
    ensures p.x - g.position.x == dx + (g.position.x - g.frame.origin.x)
    ensures p.y - g.position.y == dy + (g.position.y - g.frame.origin.y)
  {
    MoveToTarget(g, g.position.x + dx, g.position.y + dy)
  }

  /** `move` as its documentation describes it: the position moved by the
      delta, the same displacement `moveX` and `moveY` give. */
  function MoveByDelta(g: Geometry, dx: real, dy: real): (p: Point)
    ensures p == Point(MoveXTarget(g, dx), MoveYTarget(g, dy))
    ensures Translated(g, p).frame.origin == Point(g.frame.origin.x + dx, g.frame.origin.y + dy)
  {
    Point(g.position.x + dx, g.position.y + dy)
  }

  /** The two readings of `move` agree exactly when the position sits at the
      frame's origin (an anchor point of (0, 0)). */
  lemma MoveAgreesOnlyAtOriginAnchor(g: Geometry, dx: real, dy: real)
    ensures MoveTarget(g, dx, dy) == MoveByDelta(g, dx, dy) <==> g.position == g.frame.origin
  {
  }

  /** A 100 x 100 layer anchored at its centre, moved by (10, 0), is sent 60
      to the right and 50 up by `move` as written. */
  lemma MoveOvershootsCentredLayer()
    ensures var g := Geometry(Rect(Point(0.0, 0.0), Size(100.0, 100.0)), Size(100.0, 100.0), Point(50.0, 50.0));
      && MoveTarget(g, 10.0, 0.0) == Point(110.0, 100.0)
      && MoveByDelta(g, 10.0, 0.0) == Point(60.0, 50.0)
  {
    var g := Geometry(Rect(Point(0.0, 0.0), Size(100.0, 100.0)), Size(100.0, 100.0), Point(50.0, 50.0));
    assert AdjustCoordinates(g, 60.0, 50.0) == Point(60.0, 50.0);
    assert MoveToTarget(g, 60.0, 50.0) == Point(110.0, 100.0);
  }

  /** `moveCenter`: the origin that centres the frame in the root layer. */
  function CenterOrigin(g: Geometry, root: Size): (p: Point)
    ensures p.x + g.frame.size.width / 2.0 == root.width / 2.0
    ensures p.y + g.frame.size.height / 2.0 == root.height / 2.0
  {
    Point(root.width * 0.5 - g.frame.size.width * 0.5, root.height * 0.5 - g.frame.size.height * 0.5)
  }

  /** After `moveCenter`, the frame's midpoint is the root layer's midpoint. */
  lemma MoveCenterCentres(g: Geometry, root: Size)
    ensures var o := CenterOrigin(g, root);
      var moved := Translated(g, MoveToTarget(g, o.x, o.y)).frame;
      moved.MidX() == root.width / 2.0 && moved.MidY() == root.height / 2.0
  {
  }

  /** The keyword arguments of `moveRelativeTo` and `translateRelativeTo`;
      an option is present when its key is passed. */
  datatype Placement = Placement(
    left: Option<real>, right: Option<real>,
    top: Option<real>, bottom: Option<real>,
    offsetX: Option<real>, offsetY: Option<real>)

  /** `__calculateRelativeMove`: the origin that places this input relative
      to `to`. On each axis the first of the two sides listed wins, an offset
      overrides both, and an axis without options keeps the current origin. */
  function RelativeOrigin(g: Geometry, to: Geometry, o: Placement): (p: Point)
    ensures o.offsetX.Some? ==> p.x == to.frame.MinX() + o.offsetX.value
    ensures o.offsetX.None? && o.left.Some? ==> p.x + g.bounds.width + o.left.value == to.frame.MinX()
    ensures o.offsetX.None? && o.left.None? && o.right.Some? ==> p.x - to.frame.MaxX() == o.right.value
    ensures o.offsetX.None? && o.left.None? && o.right.None? ==> p.x == g.frame.origin.x
    ensures o.offsetY.Some? ==> p.y == to.frame.MinY() + o.offsetY.value
    ensures o.offsetY.None? && o.top.Some? ==> p.y - to.frame.MaxY() == o.top.value
    ensures o.offsetY.None? && o.top.None? && o.bottom.Some? ==> to.frame.MinY() - (p.y + g.bounds.height) == o.bottom.value
    ensures o.offsetY.None? && o.top.None? && o.bottom.None? ==> p.y == g.frame.origin.y
  {
    var x0 := g.frame.origin.x;
    var x1 := if o.left.Some? then to.frame.MinX() - g.bounds.width - o.left.value
              else if o.right.Some? then to.frame.MaxX() + o.right.value
              else x0;
    var y0 := g.frame.origin.y;
    var y1 := if o.top.Some? then to.frame.MaxY() + o.top.value
              else if o.bottom.Some? then to.frame.MinY() - g.bounds.height - o.bottom.value
              else y0;
    var x2 := if o.offsetX.Some? then to.frame.MinX() + o.offsetX.value else x1;
    var y2 := if o.offsetY.Some? then to.frame.MinY() + o.offsetY.value else y1;
    Point(x2, y2)
  }

  /** `moveRelativeTo(to, left = m, offsetY = 0)` on an untransformed layer
      (frame size equal to bounds size) leaves a gap of exactly `m` between
      this input's right edge and `to`'s left edge, with the bottoms aligned. */
  lemma MoveRelativeLeftLeavesGap(g: Geometry, to: Geometry, m: real)
    requires g.frame.size == g.bounds
    ensures var o := RelativeOrigin(g, to, Placement(Some(m), None, None, None, None, Some(0.0)));
      var moved := Translated(g, MoveToTarget(g, o.x, o.y)).frame;
      to.frame.MinX() - moved.MaxX() == m && moved.MinY() == to.frame.MinY()
  {
  }

  // ---------------------------------------------------------------------
  // Sizing

  /** The anchor keyword arguments of `sizeWidth`, `sizeHeight` and `size`. */
  datatype Anchors = Anchors(left: bool, right: bool, bottom: bool, top: bool)

  /** The animation targets a resize declares: the new bounds, and the new
      position coordinate of the `moveX` / `moveY` an anchor adds. */
  datatype Resize = Resize(bounds: Size, positionX: Option<real>, positionY: Option<real>)

  /** The position shift along one axis: the near-side anchor (left or
      bottom) wins over the far-side one (right or top). */
  function AnchorShift(near: bool, far: bool, newLen: real, oldLen: real): (d: Option<real>)
    ensures near ==> d == Some((newLen - oldLen) / 2.0)
    ensures !near && far ==> d == Some((oldLen - newLen) / 2.0)
    ensures !near && !far ==> d.None?
  {
    if near then Some((newLen - oldLen) / 2.0)
    else if far then Some((oldLen - newLen) / 2.0)
    else None
  }

  /** A position coordinate moved by an optional shift. */
  function Shifted(pos: real, d: Option<real>): Option<real> {
    if d.Some? then Some(pos + d.value) else None
  }

  /** With the position at the layer's centre, a resize along one axis keeps
      the near edge fixed under a near anchor, the far edge fixed under a far
      anchor alone, and the centre fixed without anchors. */
  predicate KeepsEdge(near: bool, far: bool, pos: real, newPos: Option<real>, newLen: real, oldLen: real) {
    && (near ==> newPos.Some? && newPos.value - newLen / 2.0 == pos - oldLen / 2.0)
    && (!near && far ==> newPos.Some? && newPos.value + newLen / 2.0 == pos + oldLen / 2.0)
    && (!near && !far ==> newPos.None?)
  }

  /** `sizeWidth`: new width; `anchorLeft` or `anchorRight` keeps that edge. */
  function SizeWidth(g: Geometry, width: real, a: Anchors): (r: Resize)
    ensures r.bounds == Size(width, g.bounds.height) && r.positionY.None?
    ensures KeepsEdge(a.left, a.right, g.position.x, r.positionX, width, g.bounds.width)
  {
    Resize(Size(width, g.bounds.height),
           Shifted(g.position.x, AnchorShift(a.left, a.right, width, g.bounds.width)), None)
  }

  /** `sizeHeight`: new height; `anchorBottom` or `anchorTop` keeps that edge. */
  function SizeHeight(g: Geometry, height: real, a: Anchors): (r: Resize)
    ensures r.bounds == Size(g.bounds.width, height) && r.positionX.None?
    ensures KeepsEdge(a.bottom, a.top, g.position.y, r.positionY, height, g.bounds.height)
  {
    Resize(Size(g.bounds.width, height),
           None, Shifted(g.position.y, AnchorShift(a.bottom, a.top, height, g.bounds.height)))
  }

  /** `size`: both axes at once, each anchored independently. */
  function SizeBoth(g: Geometry, width: real, height: real, a: Anchors): (r: Resize)
    ensures r.bounds == Size(width, height)
    ensures r.positionX == SizeWidth(g, width, a).positionX
    ensures r.positionY == SizeHeight(g, height, a).positionY
  {
    Resize(Size(width, height),
           Shifted(g.position.x, AnchorShift(a.left, a.right, width, g.bounds.width)),
           Shifted(g.position.y, AnchorShift(a.bottom, a.top, height, g.bounds.height)))
  }

  /** `scaleSize`: `size` with both current bounds dimensions scaled by `s`,
      so the aspect ratio is kept; the anchors are passed on to `size`. */
  function ScaleSize(g: Geometry, s: real, a: Anchors): (r: Resize)
    ensures r.bounds.width == g.bounds.width * s && r.bounds.height == g.bounds.height * s
    ensures r.bounds.width * g.bounds.height == r.bounds.height * g.bounds.width
    ensures s == 1.0 ==> r.bounds == g.bounds
    ensures KeepsEdge(a.left, a.right, g.position.x, r.positionX, g.bounds.width * s, g.bounds.width)
    ensures KeepsEdge(a.bottom, a.top, g.position.y, r.positionY, g.bounds.height * s, g.bounds.height)
  {
    assert s == 1.0 ==> g.bounds.width * s == g.bounds.width && g.bounds.height * s == g.bounds.height;
    assert g.bounds == Size(g.bounds.width, g.bounds.height);
    SizeBoth(g, g.bounds.width * s, g.bounds.height * s, a)
  }

  /** Scaling is relative to the current size: scaling by `s` and then by `u`
      gives the bounds of one scaling by `s * u`. */
  lemma ScaleSizeComposes(g: Geometry, s: real, u: real, a: Anchors)
    ensures ScaleSize(g.(bounds := ScaleSize(g, s, a).bounds), u, a).bounds == ScaleSize(g, s * u, a).bounds
  {
    assert g.bounds.width * s * u == g.bounds.width * (s * u);
    assert g.bounds.height * s * u == g.bounds.height * (s * u);
  }
}
