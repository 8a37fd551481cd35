/** The certificates carousel: an endless ring of image planes that scrolls with
    easing, wraps each plane from one edge of the view to the other, and tells a
    tap from a drag so that a tap on a plane opens it.

    The GPU side (shaders, meshes, textures, rendering) is not modelled: a plane's
    mesh is reduced to its horizontal scale, vertical scale and horizontal
    position, all as reals. */
module Carousel {
  import opened Options

  // Layout constants of Media.resize.
  const ReferenceHeight: real := 1500.0
  const PlaneWidthPx: real := 700.0
  const PlaneHeightPx: real := 900.0
  const Gap: real := 1.5

  // Scroll constants of WebGLApp.
  const InitialEase: real := 0.05
  const DragSpeed: real := 6.0
  const DragThreshold: real := 2.0
  const DragScale: real := 0.01
  const WheelScale: real := 0.005

  /** A width/height pair: the camera's visible area, or a container in pixels. */
  datatype Size = Size(width: real, height: real)

  /** The container's bounding client rectangle. */
  datatype Rect = Rect(left: real, top: real, width: real, height: real)

  /** One content entry: an image and its caption. */
  datatype Item = Item(image: string, text: string)

  function Abs(r: real): (a: real)
    ensures a >= 0.0 && (a == r || a == -r)
  {
    if r < 0.0 then -r else r
  }

  // ---------------------------------------------------------------------------
  // Easing
  // ---------------------------------------------------------------------------

  /** Linear interpolation from p1 towards p2 by the fraction t: the result has
      covered the fraction t of the way and has (1 - t) of it left to go. */
  function Lerp(p1: real, p2: real, t: real): (r: real)
    ensures r - p1 == t * (p2 - p1)
    ensures r - p2 == (1.0 - t) * (p1 - p2)
  {
    p1 + (p2 - p1) * t
  }

  lemma ScaleAbs(a: real, c: real)
    requires c >= 0.0
    ensures Abs(a * c) == c * Abs(a)
  {
    if a < 0.0 {
      assert a * c <= 0.0;
      assert -(a * c) == c * (-a);
    }
  }

  /** One eased step with 0 <= t <= 1 lands between the two ends, leaves (1 - t) of the
      distance to the target, and reaches the target exactly when t is 1 (or the
      distance was already 0). */
  lemma LerpContracts(p1: real, p2: real, t: real)
    requires 0.0 <= t <= 1.0
    ensures Abs(Lerp(p1, p2, t) - p2) == (1.0 - t) * Abs(p1 - p2)
    ensures p1 <= p2 ==> p1 <= Lerp(p1, p2, t) <= p2
    ensures p2 <= p1 ==> p2 <= Lerp(p1, p2, t) <= p1
    ensures Lerp(p1, p2, t) == p2 <==> t == 1.0 || p1 == p2
  {
    ScaleAbs(p1 - p2, 1.0 - t);
    assert (p1 - p2) * (1.0 - t) == (1.0 - t) * (p1 - p2);
    if p1 <= p2 {
      assert (p2 - p1) * t <= (p2 - p1) * 1.0;
    } else {
      assert (p1 - p2) * t <= (p1 - p2) * 1.0;
    }
  }

  /** The scroll position after n frames that ease towards a fixed target. */
  function Eased(current: real, target: real, ease: real, n: nat): real
  {
    if n == 0 then current else Lerp(Eased(current, target, ease, n - 1), target, ease)
  }

  function Pow(b: real, n: nat): real
  {
    if n == 0 then 1.0 else b * Pow(b, n - 1)
  }

  /** Each frame scales the signed distance to the target by exactly (1 - ease). */
  lemma {:induction false} EasedOffset(current: real, target: real, ease: real, n: nat)
    ensures Eased(current, target, ease, n) - target == Pow(1.0 - ease, n) * (current - target)
  {
    if n > 0 {
      EasedOffset(current, target, ease, n - 1);
      var prev := Eased(current, target, ease, n - 1);
      var b := 1.0 - ease;
      var p := Pow(b, n - 1);
      var d := current - target;
      assert Eased(current, target, ease, n) - target == (prev - target) * b;
      assert prev - target == p * d;
      assert (p * d) * b == (b * p) * d;
    }
  }

  lemma {:induction false} PowInUnit(b: real, n: nat)
    requires 0.0 <= b <= 1.0
    ensures 0.0 <= Pow(b, n) <= 1.0
    ensures b < 1.0 && n > 0 ==> Pow(b, n) < 1.0
  {
    if n > 0 {
      PowInUnit(b, n - 1);
      assert b * Pow(b, n - 1) <= 1.0 * Pow(b, n - 1);
      assert b * Pow(b, n - 1) <= b * 1.0;
    }
  }

  /** A gap that is a fraction p of the distance d, with 0 <= p <= 1, is no larger than
      d, and strictly smaller when p < 1 and d is not 0. */
  lemma ScaledGap(gap: real, p: real, d: real)
    requires gap == p * d && 0.0 <= p <= 1.0
    ensures Abs(gap) == p * Abs(d)
    ensures p < 1.0 && d != 0.0 ==> Abs(gap) < Abs(d)
  {
    ScaleAbs(d, p);
    assert p * d == d * p;
    if p < 1.0 && d != 0.0 {
      assert p * Abs(d) < 1.0 * Abs(d);
    }
  }

  /** After n frames towards a fixed target the distance is (1 - ease)^n times the first
      one: it never overshoots and shrinks strictly whenever ease < 1 and n > 0. */
  lemma EasedDistance(current: real, target: real, ease: real, n: nat)
    requires 0.0 < ease <= 1.0
    ensures Abs(Eased(current, target, ease, n) - target) == Pow(1.0 - ease, n) * Abs(current - target)
    ensures n > 0 && current != target ==> Abs(Eased(current, target, ease, n) - target) < Abs(current - target)
  {
    EasedOffset(current, target, ease, n);
    PowInUnit(1.0 - ease, n);
    ScaledGap(Eased(current, target, ease, n) - target, Pow(1.0 - ease, n), current - target);
  }

  // ---------------------------------------------------------------------------
  // One plane (Media): layout, wrap, hit test
  // ---------------------------------------------------------------------------

  /** A snapshot of the mutable fields of a Media object. */
  datatype MediaState = MediaState(
    scaleX: real, scaleY: real, positionX: real,
    width: real, widthTotal: real, x: real, extra: real, viewport: Size)

  /** Horizontal scale of a plane for the given camera view and container size. */
  function PlaneWidth(viewport: Size, screen: Size): real
    requires screen.width > 0.0
  {
    var scale := screen.height / ReferenceHeight;
    (viewport.width * (PlaneWidthPx * scale)) / screen.width
  }

  /** Vertical scale of a plane for the given camera view and container size. */
  function PlaneHeight(viewport: Size, screen: Size): real
    requires screen.height > 0.0
  {
    var scale := screen.height / ReferenceHeight;
    (viewport.height * (PlaneHeightPx * scale)) / screen.height
  }

  /** The camera view of the container: its visible height times the aspect ratio. */
  function ViewportFor(containerWidth: real, containerHeight: real, viewHeight: real): Size
    requires containerHeight > 0.0
  {
    Size(viewHeight * (containerWidth / containerHeight), viewHeight)
  }

  /** Because the view's width follows the container's aspect ratio, a plane is always
      7/15 of the view's height wide and 3/5 of it tall, whatever the container size. */
  lemma PlaneSizeFollowsViewHeight(containerWidth: real, containerHeight: real, viewHeight: real)
    requires containerWidth > 0.0 && containerHeight > 0.0
    ensures PlaneWidth(ViewportFor(containerWidth, containerHeight, viewHeight), Size(containerWidth, containerHeight))
            == viewHeight * 7.0 / 15.0
    ensures PlaneHeight(ViewportFor(containerWidth, containerHeight, viewHeight), Size(containerWidth, containerHeight))
            == viewHeight * 3.0 / 5.0
  {
    var cw, ch := containerWidth, containerHeight;
    var scale := ch / ReferenceHeight;
    var vw := viewHeight * (cw / ch);
    assert vw * (PlaneWidthPx * scale) == viewHeight * 7.0 / 15.0 * cw by {
      assert (cw / ch) * ch == cw;
      calc {
        vw * (PlaneWidthPx * scale);
        viewHeight * (cw / ch) * (700.0 * (ch / 1500.0));
        viewHeight * 700.0 / 1500.0 * ((cw / ch) * ch);
        viewHeight * 7.0 / 15.0 * cw;
      }
    }
    assert viewHeight * (PlaneHeightPx * scale) == viewHeight * 3.0 / 5.0 * ch;
  }

  /** Media.resize: scale the plane to the view and lay it out at `width * index`. */
  function Resized(m: MediaState, index: nat, viewport: Size, screen: Size): MediaState
    requires screen.width > 0.0 && screen.height > 0.0
  {
    var scaleX := PlaneWidth(viewport, screen);
    var width := scaleX + Gap;
    m.(viewport := viewport, scaleX := scaleX, scaleY := PlaneHeight(viewport, screen),
       width := width, x := width * (index as real))
  }

  /** Two planes laid out for the same view sit exactly one `width` apart when their
      ring indices are neighbours, and that width exceeds the plane by the gap. */
  lemma LayoutSpacing(a: MediaState, b: MediaState, i: nat, viewport: Size, screen: Size)
    requires screen.width > 0.0 && screen.height > 0.0
    ensures Resized(b, i + 1, viewport, screen).x - Resized(a, i, viewport, screen).x
            == Resized(a, i, viewport, screen).width
    ensures Resized(a, i, viewport, screen).width == Resized(b, i + 1, viewport, screen).width
            == Resized(a, i, viewport, screen).scaleX + Gap
    ensures Resized(a, i, viewport, screen).x == Resized(a, i, viewport, screen).width * (i as real)
  {
    var w := PlaneWidth(viewport, screen) + Gap;
    assert w * ((i + 1) as real) - w * (i as real) == w;
  }

  /** -1 for a forward wrap, +1 for a backward wrap, 0 for none (the test of Media.update). */
  function WrapStep(positionX: real, scaleX: real, viewportWidth: real, direction: int): int
  {
    var planeOffset := scaleX / 2.0;
    var viewportOffset := viewportWidth / 2.0;
    if direction == 1 && positionX + planeOffset < -viewportOffset then -1
    else if direction == -1 && positionX - planeOffset > viewportOffset then 1
    else 0
  }

  /** Media.update: place the plane with the pre-wrap `extra`, then wrap it at most once. */
  function Updated(m: MediaState, scroll: real, direction: int, length: nat): MediaState
  {
    var widthTotal := m.width * (length as real);
    var positionX := m.x - scroll - m.extra;
    var step := WrapStep(positionX, m.scaleX, m.viewport.width, direction);
    var extra := if step == -1 then m.extra - widthTotal
                 else if step == 1 then m.extra + widthTotal
                 else m.extra;
    m.(widthTotal := widthTotal, positionX := positionX, extra := extra)
  }

  /** An update changes only positionX, widthTotal and extra; it draws the plane with
      the pre-wrap `extra`, and then moves `extra` by exactly one ring width or not at all. */
  lemma UpdateWrapsAtMostOnce(m: MediaState, scroll: real, direction: int, length: nat)
    ensures var r := Updated(m, scroll, direction, length);
      && r == m.(positionX := r.positionX, widthTotal := r.widthTotal, extra := r.extra)
      && r.widthTotal == m.width * (length as real)
      && r.positionX == m.x - scroll - m.extra
      && (r.extra == m.extra - r.widthTotal || r.extra == m.extra || r.extra == m.extra + r.widthTotal)
  {
  }

  /** With a positive ring width, `extra` drops (a forward wrap) exactly when scrolling
      forward with the plane wholly past the left edge, and rises (a backward wrap)
      exactly when scrolling backward with the plane wholly past the right edge; the
      wrapped plane reappears one ring width further along, at the opposite end. */
  lemma WrapMovesToOtherEnd(m: MediaState, scroll: real, direction: int, length: nat)
    requires m.width > 0.0 && length > 0
    ensures var r := Updated(m, scroll, direction, length);
      && (r.extra < m.extra <==> direction == 1 && r.positionX + m.scaleX / 2.0 < -(m.viewport.width / 2.0))
      && (r.extra > m.extra <==> direction == -1 && r.positionX - m.scaleX / 2.0 > m.viewport.width / 2.0)
      && (r.extra < m.extra ==> m.x - scroll - r.extra == r.positionX + r.widthTotal)
      && (r.extra > m.extra ==> m.x - scroll - r.extra == r.positionX - r.widthTotal)
  {
    assert m.width * (length as real) > 0.0;
  }

  /** If `extra` is k ring widths before an update, it is (k + step) ring widths after,
      and the plane is drawn at x - scroll - k ring widths: positions stay congruent to
      x - scroll modulo the ring width. */
  lemma UpdateKeepsWholeWraps(m: MediaState, scroll: real, direction: int, length: nat, k: int)
    requires m.extra == (k as real) * m.width * (length as real)
    ensures var r := Updated(m, scroll, direction, length);
      var step := WrapStep(r.positionX, m.scaleX, m.viewport.width, direction);
      && r.extra == ((k + step) as real) * m.width * (length as real)
      && r.positionX == m.x - scroll - (k as real) * r.widthTotal
  {
    var r := Updated(m, scroll, direction, length);
    var step := WrapStep(r.positionX, m.scaleX, m.viewport.width, direction);
    var wt := m.width * (length as real);
    assert (k as real) * m.width * (length as real) == (k as real) * wt;
    assert ((k + step) as real) * m.width * (length as real) == (k as real) * wt + (step as real) * wt;
  }

  /** With a fixed view height, a resize to any container size lays a plane out with
      the same scale, width and x as before: only the aspect ratio of the view
      changes, and the plane follows the view's height. */
  lemma ResizeKeepsLayout(a: MediaState, b: MediaState, index: nat, viewHeight: real,
                          w1: real, h1: real, w2: real, h2: real)
    requires w1 > 0.0 && h1 > 0.0 && w2 > 0.0 && h2 > 0.0
    ensures var ra := Resized(a, index, ViewportFor(w1, h1, viewHeight), Size(w1, h1));
      var rb := Resized(b, index, ViewportFor(w2, h2, viewHeight), Size(w2, h2));
      && ra.scaleX == rb.scaleX && ra.scaleY == rb.scaleY
      && ra.width == rb.width && ra.x == rb.x
  {
    PlaneSizeFollowsViewHeight(w1, h1, viewHeight);
    PlaneSizeFollowsViewHeight(w2, h2, viewHeight);
  }

  /** The closed box of a plane: its horizontal scale around positionX, its vertical
      scale around 0. */
  predicate BoxContains(m: MediaState, px: real, py: real)
  {
    var halfWidth := m.scaleX / 2.0;
    var halfHeight := m.scaleY / 2.0;
    m.positionX - halfWidth <= px <= m.positionX + halfWidth
    && -halfHeight <= py <= halfHeight
  }

  /** A plane centred at 0, 2 wide and 1 tall is hit at (0, 0) and at its very edge
      (1, 0.5), and missed at (1.1, 0). */
  lemma HitTestExample()
    ensures var m := MediaState(2.0, 1.0, 0.0, 3.5, 0.0, 0.0, 0.0, Size(10.0, 5.0));
      BoxContains(m, 0.0, 0.0) && BoxContains(m, 1.0, 0.5) && !BoxContains(m, 1.1, 0.0)
  {
  }

  /** Planes drawn at least one layout width apart (plane plus gap) never share a point. */
  lemma SpacedBoxesAreDisjoint(a: MediaState, b: MediaState, px: real, py: real)
    requires a.scaleX == b.scaleX >= 0.0 && a.width == a.scaleX + Gap
    requires Abs(b.positionX - a.positionX) >= a.width
    ensures !(BoxContains(a, px, py) && BoxContains(b, px, py))
  {
  }

  /** Pointer coordinates in the container mapped to the camera's world coordinates
      (the y axis is flipped). */
  function ToWorld(clientX: real, clientY: real, rect: Rect, viewport: Size): (w: (real, real))
    requires rect.width > 0.0 && rect.height > 0.0
    ensures viewport.width > 0.0 ==>
      clientX == rect.left + (w.0 / (viewport.width / 2.0) + 1.0) / 2.0 * rect.width
    ensures viewport.height > 0.0 ==>
      clientY == rect.top + (1.0 - w.1 / (viewport.height / 2.0)) / 2.0 * rect.height
  {
    var ndcX := ((clientX - rect.left) / rect.width) * 2.0 - 1.0;
    var ndcY := -(((clientY - rect.top) / rect.height) * 2.0 - 1.0);
    (ndcX * (viewport.width / 2.0), ndcY * (viewport.height / 2.0))
  }

  /** A point inside the container lands inside the view; the container's centre lands
      at the origin and its top-left corner at (-width/2, +height/2) of the view. */
  lemma ToWorldBounds(clientX: real, clientY: real, rect: Rect, viewport: Size)
    requires rect.width > 0.0 && rect.height > 0.0
    requires viewport.width >= 0.0 && viewport.height >= 0.0
    ensures rect.left <= clientX <= rect.left + rect.width ==>
      -(viewport.width / 2.0) <= ToWorld(clientX, clientY, rect, viewport).0 <= viewport.width / 2.0
    ensures rect.top <= clientY <= rect.top + rect.height ==>
      -(viewport.height / 2.0) <= ToWorld(clientX, clientY, rect, viewport).1 <= viewport.height / 2.0
    ensures ToWorld(rect.left + rect.width / 2.0, rect.top + rect.height / 2.0, rect, viewport) == (0.0, 0.0)
    ensures ToWorld(rect.left, rect.top, rect, viewport) == (-(viewport.width / 2.0), viewport.height / 2.0)
  {
    var fx := (clientX - rect.left) / rect.width;
    var fy := (clientY - rect.top) / rect.height;
    assert (rect.left + rect.width / 2.0 - rect.left) / rect.width == 0.5;
    assert (rect.top + rect.height / 2.0 - rect.top) / rect.height == 0.5;
    var c := ToWorld(rect.left + rect.width / 2.0, rect.top + rect.height / 2.0, rect, viewport);
    assert c.0 == 0.0 * (viewport.width / 2.0);
    assert c.1 == -(0.0) * (viewport.height / 2.0);
    if rect.left <= clientX <= rect.left + rect.width {
      assert 0.0 <= fx <= 1.0;
      UnitToView(fx, viewport.width);
    }
    if rect.top <= clientY <= rect.top + rect.height {
      assert 0.0 <= fy <= 1.0;
      UnitToView(-(fy * 2.0 - 1.0) / 2.0 + 0.5, viewport.height);
      assert -(fy * 2.0 - 1.0) == (1.0 - fy) * 2.0 - 1.0;
    }
  }

  lemma UnitToView(f: real, v: real)
    requires 0.0 <= f <= 1.0 && v >= 0.0
    ensures -(v / 2.0) <= (f * 2.0 - 1.0) * (v / 2.0) <= v / 2.0
  {
    var n := f * 2.0 - 1.0;
    assert -1.0 <= n <= 1.0;
    if n >= 0.0 {
      assert n * (v / 2.0) <= 1.0 * (v / 2.0);
    } else {
      assert (-n) * (v / 2.0) <= 1.0 * (v / 2.0);
    }
  }

  /** What resize makes of plane `index`'s layout fields (viewport, scale x and y,
      width, x): sized for view `vp` on a `screen`, and placed at `width * index`. */
  ghost predicate PlacedFor(layout: (Size, real, real, real, real), index: nat, vp: Size, screen: Size)
  {
    var (viewport, scaleX, scaleY, width, x) := layout;
    && screen.width > 0.0 && screen.height > 0.0
    && viewport == vp
    && scaleX == PlaneWidth(vp, screen)
    && scaleY == PlaneHeight(vp, screen)
    && width == scaleX + Gap
    && x == width * (index as real)
  }

  /** The state of a plane as initMedias creates it, before any layout. */
  const Unplaced := MediaState(1.0, 1.0, 0.0, 0.0, 0.0, 0.0, 0.0, Size(0.0, 0.0))

  /** A plane that has been laid out once and never updated is the layout of a fresh one. */
  lemma FirstLayout(m: MediaState, index: nat, vp: Size, screen: Size)
    requires PlacedFor((m.viewport, m.scaleX, m.scaleY, m.width, m.x), index, vp, screen)
    requires m.positionX == 0.0 && m.widthTotal == 0.0 && m.extra == 0.0
    ensures m == Resized(Unplaced, index, vp, screen)
  {
  }

  class Media {
    const image: string
    const text: string
    const index: nat
    var scaleX: real
    var scaleY: real
    var positionX: real
    var width: real
    var widthTotal: real
    var x: real
    var extra: real
    var viewport: Size
    /** How many ring widths `extra` stands for (negative after forward wraps). */
    ghost var wraps: int

    function State(): MediaState
      reads this
    {
      MediaState(scaleX, scaleY, positionX, width, widthTotal, x, extra, viewport)
    }

    /** A fresh plane: unit mesh scale, no layout yet, no wrap. */
    constructor (image: string, text: string, index: nat, viewport: Size)
      ensures this.image == image && this.text == text && this.index == index
      ensures State() == MediaState(1.0, 1.0, 0.0, 0.0, 0.0, 0.0, 0.0, viewport)
      ensures wraps == 0
    {
      this.image := image;
      this.text := text;
      this.index := index;
      this.viewport := viewport;
      scaleX, scaleY, positionX := 1.0, 1.0, 0.0;
      width, widthTotal, x, extra := 0.0, 0.0, 0.0, 0.0;
      wraps := 0;
    }

    /** The plane is laid out for view `vp` on a `screen`. */
    ghost predicate LaidOutFor(vp: Size, screen: Size)
      reads this
    {
      PlacedFor(Layout(), index, vp, screen)
    }

    /** The part of the state that only `update` changes. */
    ghost function Scroll(): (real, real, real, int)
      reads this
    {
      (positionX, widthTotal, extra, wraps)
    }

    method Resize(viewport: Size, screen: Size)
      requires screen.width > 0.0 && screen.height > 0.0
      modifies this
      ensures State() == Resized(old(State()), index, viewport, screen)
      ensures LaidOutFor(viewport, screen)
      ensures Scroll() == old(Scroll())
    {
      this.viewport := viewport;
      var scale := screen.height / ReferenceHeight;
      scaleX := (viewport.width * (PlaneWidthPx * scale)) / screen.width;
      scaleY := (viewport.height * (PlaneHeightPx * scale)) / screen.height;
      width := scaleX + Gap;
      x := width * (index as real);
    }

    /** The part of the state that only `resize` changes. */
    ghost function Layout(): (Size, real, real, real, real)
      reads this
    {
      (viewport, scaleX, scaleY, width, x)
    }

    /** `extra` stands for exactly `wraps` ring widths of a ring of `length` planes. */
    ghost predicate WholeWraps(length: nat)
      reads this
    {
      extra == (wraps as real) * width * (length as real)
    }

    method Update(scroll: real, direction: int, length: nat)
      modifies this
      ensures State() == Updated(old(State()), scroll, direction, length)
      ensures wraps == old(wraps) + WrapStep(positionX, scaleX, viewport.width, direction)
      ensures Layout() == old(Layout())
      ensures old(WholeWraps(length)) ==>
        WholeWraps(length) && positionX == x - scroll - (old(wraps) as real) * widthTotal
    {
      ghost var m := State();
      widthTotal := width * (length as real);
      positionX := x - scroll - extra;
      var planeOffset := scaleX / 2.0;
      var viewportOffset := viewport.width / 2.0;
      if direction == 1 && positionX + planeOffset < -viewportOffset {
        extra := extra - widthTotal;
        wraps := wraps - 1;
      } else if direction == -1 && positionX - planeOffset > viewportOffset {
        extra := extra + widthTotal;
        wraps := wraps + 1;
      }
      if old(WholeWraps(length)) {
        UpdateKeepsWholeWraps(m, scroll, direction, length, old(wraps));
      }
    }

    /** hitTest: the point is within half the plane's scale of its centre on both axes. */
    predicate HitTest(mouseX: real, mouseY: real): (hit: bool)
      reads this
      ensures hit <==> Abs(mouseX - positionX) <= scaleX / 2.0 && Abs(mouseY) <= scaleY / 2.0
    {
      BoxContains(State(), mouseX, mouseY)
    }
  }

  // ---------------------------------------------------------------------------
  // Pointer gestures
  // ---------------------------------------------------------------------------

  /** The pointer fields of WebGLApp together with the scroll target they drive. */
  datatype DragState = DragState(isDragging: bool, hasMoved: bool, touchStart: real, target: real)

  /** onTouchDown. */
  function Pressed(d: DragState, clientX: real): DragState
  {
    d.(isDragging := true, hasMoved := false, touchStart := clientX)
  }

  /** onTouchMove. */
  function Moved(d: DragState, x: real): DragState
  {
    if !d.isDragging then d
    else
      var dist := (d.touchStart - x) * DragSpeed;
      d.(hasMoved := d.hasMoved || Abs(dist) > DragThreshold,
         target := d.target + dist * DragScale, touchStart := x)
  }

  /** A run of move events. */
  function MovedAll(d: DragState, xs: seq<real>): DragState
    decreases |xs|
  {
    if xs == [] then d else MovedAll(Moved(d, xs[0]), xs[1..])
  }

  /** Some single step of the run, starting from `start`, is longer than the threshold. */
  predicate SomeStepExceeds(start: real, xs: seq<real>)
    decreases |xs|
  {
    xs != [] && (Abs((start - xs[0]) * DragSpeed) > DragThreshold || SomeStepExceeds(xs[0], xs[1..]))
  }

  /** A move while not dragging changes nothing; `hasMoved` once set stays set. */
  lemma {:induction false} MovesOutsideDragAreIgnored(d: DragState, xs: seq<real>)
    ensures !d.isDragging ==> MovedAll(d, xs) == d
    ensures d.hasMoved ==> MovedAll(d, xs).hasMoved
    decreases |xs|
  {
    if xs != [] {
      MovesOutsideDragAreIgnored(Moved(d, xs[0]), xs[1..]);
    }
  }

  /** During a drag, the target moves by the total pointer travel times 6 * 0.01 (the
      per-step distances telescope), and touchStart ends at the last pointer position. */
  lemma {:induction false} DragTargetTelescopes(d: DragState, xs: seq<real>)
    requires d.isDragging && xs != []
    ensures MovedAll(d, xs).isDragging
    ensures MovedAll(d, xs).touchStart == xs[|xs| - 1]
    ensures MovedAll(d, xs).target == d.target + (d.touchStart - xs[|xs| - 1]) * DragSpeed * DragScale
    decreases |xs|
  {
    var d' := Moved(d, xs[0]);
    if |xs| > 1 {
      DragTargetTelescopes(d', xs[1..]);
      assert xs[1..][|xs[1..]| - 1] == xs[|xs| - 1];
    }
  }

  /** After a press, the gesture counts as a drag exactly when some single move step is
      longer than the threshold (2 / 6 of a pixel). */
  lemma {:induction false} DragClassification(d: DragState, xs: seq<real>)
    requires d.isDragging
    ensures MovedAll(d, xs).hasMoved <==> d.hasMoved || SomeStepExceeds(d.touchStart, xs)
    decreases |xs|
  {
    if xs != [] {
      DragClassification(Moved(d, xs[0]), xs[1..]);
    }
  }

  /** Press, moves, then the gesture is a tap (no click suppression) iff no step was long. */
  lemma GestureIsTapIffNoLongStep(d: DragState, x0: real, xs: seq<real>)
    ensures !MovedAll(Pressed(d, x0), xs).hasMoved <==> !SomeStepExceeds(x0, xs)
  {
    DragClassification(Pressed(d, x0), xs);
  }

  // ---------------------------------------------------------------------------
  // The carousel (WebGLApp)
  // ---------------------------------------------------------------------------

  /** Entry i of the doubled list is the item i mod N: each item appears exactly twice
      in the ring, N entries apart. */
  lemma RingEntry<T>(items: seq<T>, i: nat)
    requires i < 2 * |items|
    ensures (items + items)[i] == items[i % |items|]
    ensures i < |items| ==> (items + items)[i + |items|] == (items + items)[i]
  {
    if i < |items| {
      assert i % |items| == i;
    } else {
      assert i == 1 * |items| + (i - |items|);
      assert i % |items| == i - |items|;
    }
  }

  class WebGLApp {
    const items: seq<Item>
    const medias: array<Media>
    /** The camera's visible height, 2 * tan(fov / 2) * z: fov and z are fixed when the
        carousel is built, so every resize computes the same value. */
    const viewHeight: real
    var current: real
    var target: real
    var last: real
    var ease: real
    var touchStart: real
    var isDragging: bool
    var hasMoved: bool
    var viewport: Size
    /** The container size of the last layout (zero before the first one). */
    ghost var screen: Size

    /** The ring is the item list doubled, with one distinct plane per ring entry. */
    ghost predicate RingBuilt()
      reads medias
    {
      && medias.Length == 2 * |items|
      && (forall i, j :: 0 <= i < j < medias.Length ==> medias[i] != medias[j])
      && (forall i :: 0 <= i < medias.Length ==>
            && medias[i].index == i
            && medias[i].image == (items + items)[i].image
            && medias[i].text == (items + items)[i].text)
    }

    /** Every plane is laid out for the current view and the last container size. */
    ghost predicate LaidOut()
      reads this, medias, medias[..]
    {
      && screen.width > 0.0 && screen.height > 0.0
      && forall i :: 0 <= i < medias.Length ==> medias[i].LaidOutFor(viewport, screen)
    }

    ghost predicate Valid()
      reads this, medias, medias[..]
    {
      && RingBuilt() && LaidOut() && ease == InitialEase
      && viewport == ViewportFor(screen.width, screen.height, viewHeight)
    }

    /** The common layout width of all planes. */
    ghost function ItemWidth(): real
      requires screen.width > 0.0
      reads this
    {
      PlaneWidth(viewport, screen) + Gap
    }

    /** Laid out, the ring's planes share one width and plane i sits i widths from plane 0. */
    lemma LaidOutIsEvenlySpaced(i: nat)
      requires LaidOut() && i < medias.Length
      ensures medias[i].width == ItemWidth()
      ensures medias[i].x == ItemWidth() * (medias[i].index as real)
    {
      assert medias[i].LaidOutFor(viewport, screen);
    }

    /** Every plane's `extra` is a whole number of ring widths. */
    ghost predicate Tiled()
      reads this, medias, medias[..]
    {
      forall i :: 0 <= i < medias.Length ==> medias[i].WholeWraps(medias.Length)
    }

    function Pointer(): DragState
      reads this
    {
      DragState(isDragging, hasMoved, touchStart, target)
    }

    /** Builds the carousel: the ring, the first layout and the first frame.  That frame
        scrolls by nothing and, as current == last, runs backward (direction -1): each
        fresh plane is laid out and then updated once, so a plane already wholly right
        of the view wraps to the other end. */
    constructor (items: seq<Item>, containerWidth: real, containerHeight: real, viewHeight: real)
      requires containerWidth > 0.0 && containerHeight > 0.0 && viewHeight > 0.0
      ensures Valid() && Tiled() && fresh(medias) && fresh(medias[..])
      ensures this.items == items && this.viewHeight == viewHeight && medias.Length == 2 * |items|
      ensures viewport == ViewportFor(containerWidth, containerHeight, viewHeight)
      ensures screen == Size(containerWidth, containerHeight)
      ensures current == 0.0 && target == 0.0 && last == 0.0 && ease == InitialEase
      ensures Pointer() == DragState(false, false, 0.0, 0.0)
      ensures forall i :: 0 <= i < medias.Length ==>
        medias[i].State()
          == Updated(Resized(Unplaced, i, viewport, screen), 0.0, -1, medias.Length)
    {
      this.items := items;
      this.viewHeight := viewHeight;
      var ms := InitMedias(items);
      medias := ms;
      current, target, last, ease := 0.0, 0.0, 0.0, InitialEase;
      touchStart, isDragging, hasMoved := 0.0, false, false;
      viewport := Size(0.0, 0.0);
      screen := Size(0.0, 0.0);
      new;
      label built:
      Resize(containerWidth, containerHeight);
      forall i | 0 <= i < medias.Length
        ensures medias[i].WholeWraps(medias.Length)
      {
        assert medias[i].Scroll() == old@built(medias[i].Scroll()) == (0.0, 0.0, 0.0, 0);
      }
      forall i | 0 <= i < medias.Length
        ensures medias[i].State() == Resized(Unplaced, i, viewport, screen)
      {
        assert medias[i].LaidOutFor(viewport, screen);
        assert medias[i].Scroll() == old@built(medias[i].Scroll()) == (0.0, 0.0, 0.0, 0);
        FirstLayout(medias[i].State(), i, viewport, screen);
      }
      var direction := Update();
    }

    /** initMedias: one fresh plane per entry of `items ++ items`, with index i. */
    static method InitMedias(items: seq<Item>) returns (medias: array<Media>)
      ensures fresh(medias) && medias.Length == 2 * |items|
      ensures forall i :: 0 <= i < medias.Length ==> fresh(medias[i])
      ensures forall i, j :: 0 <= i < j < medias.Length ==> medias[i] != medias[j]
      ensures forall i :: 0 <= i < medias.Length ==>
        && medias[i].index == i
        && medias[i].image == (items + items)[i].image
        && medias[i].text == (items + items)[i].text
        && medias[i].State() == MediaState(1.0, 1.0, 0.0, 0.0, 0.0, 0.0, 0.0, Size(0.0, 0.0))
        && medias[i].wraps == 0
      ensures forall i :: 0 <= i < medias.Length ==> medias[i].image == items[i % |items|].image
    {
      var doubleItems := items + items;
      var ms: seq<Media> := [];
      var i := 0;
      while i < |doubleItems|
        invariant 0 <= i <= |doubleItems| && |ms| == i
        invariant forall j :: 0 <= j < i ==> fresh(ms[j])
        invariant forall j, k :: 0 <= j < k < i ==> ms[j] != ms[k]
        invariant forall j :: 0 <= j < i ==>
          && ms[j].index == j
          && ms[j].image == doubleItems[j].image
          && ms[j].text == doubleItems[j].text
          && ms[j].State() == MediaState(1.0, 1.0, 0.0, 0.0, 0.0, 0.0, 0.0, Size(0.0, 0.0))
          && ms[j].wraps == 0
      {
        var m := new Media(doubleItems[i].image, doubleItems[i].text, i, Size(0.0, 0.0));
        ms := ms + [m];
        i := i + 1;
      }
      medias := new Media[|ms|](j requires 0 <= j < |ms| => ms[j]);
      forall i | 0 <= i < medias.Length
        ensures medias[i].image == items[i % |items|].image
      {
        RingEntry(items, i);
      }
    }

    /** resize: a new view from the container size, then every plane laid out again
        (Media.resize), each keeping its position, ring width, `extra` and wrap count.
        The view keeps its height, so the planes keep their width and a tiled ring
        stays tiled. */
    method Resize(containerWidth: real, containerHeight: real)
      requires RingBuilt() && containerWidth > 0.0 && containerHeight > 0.0
      modifies this, medias[..]
      ensures RingBuilt() && LaidOut()
      ensures viewport == ViewportFor(containerWidth, containerHeight, viewHeight)
      ensures screen == Size(containerWidth, containerHeight)
      ensures forall i :: 0 <= i < medias.Length ==> medias[i].Scroll() == old(medias[i].Scroll())
      ensures current == old(current) && target == old(target) && last == old(last) && ease == old(ease)
      ensures Pointer() == old(Pointer())
      ensures old(Valid() && Tiled()) ==> Tiled()
    {
      ghost var tiled := Valid() && Tiled();
      var size := Size(containerWidth, containerHeight);
      ghost var width := viewHeight * 7.0 / 15.0 + Gap;
      if tiled {
        PlaneSizeFollowsViewHeight(screen.width, screen.height, viewHeight);
        forall i | 0 <= i < medias.Length
          ensures medias[i].width == width
        {
          assert medias[i].LaidOutFor(viewport, screen);
        }
      }
      screen := size;
      viewport := ViewportFor(containerWidth, containerHeight, viewHeight);
      PlaneSizeFollowsViewHeight(containerWidth, containerHeight, viewHeight);
      LayOutMedias(viewport, size, tiled);
    }

    /** The forEach of resize: Media.resize on every plane in ring order.  Planes that
        already have the new width keep a whole number of ring widths in `extra`. */
    method LayOutMedias(viewport: Size, screen: Size, ghost tiled: bool)
      requires RingBuilt() && screen.width > 0.0 && screen.height > 0.0
      requires tiled ==> forall i :: 0 <= i < medias.Length ==>
        medias[i].WholeWraps(medias.Length) && medias[i].width == PlaneWidth(viewport, screen) + Gap
      modifies medias[..]
      ensures forall i :: 0 <= i < medias.Length ==> medias[i].LaidOutFor(viewport, screen)
      ensures forall i :: 0 <= i < medias.Length ==> medias[i].Scroll() == old(medias[i].Scroll())
      ensures tiled ==> forall i :: 0 <= i < medias.Length ==> medias[i].WholeWraps(medias.Length)
    {
      var n := medias.Length;
      var i := 0;
      while i < n
        invariant 0 <= i <= n
        invariant forall j :: 0 <= j < i ==> medias[j].LaidOutFor(viewport, screen)
        invariant forall j :: 0 <= j < n ==> medias[j].Scroll() == old(medias[j].Scroll())
        invariant tiled ==> forall j :: 0 <= j < n ==>
          medias[j].WholeWraps(n) && medias[j].width == PlaneWidth(viewport, screen) + Gap
      {
        medias[i].Resize(viewport, screen);
        i := i + 1;
      }
    }

    /** update: one animation frame.  Returns the scroll direction it used. */
    method Update() returns (direction: int)
      requires Valid()
      modifies this, medias[..]
      ensures Valid()
      ensures current == Lerp(old(current), old(target), old(ease))
      ensures direction == (if current > old(last) then 1 else -1)
      ensures last == current
      ensures target == old(target) && ease == old(ease) && viewport == old(viewport) && screen == old(screen)
      ensures Pointer() == old(Pointer())
      ensures forall i :: 0 <= i < medias.Length ==>
        medias[i].State() == Updated(old(medias[i].State()), current, direction, medias.Length)
      ensures old(Tiled()) ==> Tiled()
    {
      current := Lerp(current, target, ease);
      direction := if current > last then 1 else -1;
      if medias.Length > 0 {
        UpdateMedias(current, direction, viewport, screen, Tiled());
      }
      last := current;
    }

    /** The forEach of update: Media.update on every plane in ring order. */
    method UpdateMedias(scroll: real, direction: int, ghost vp: Size, ghost sc: Size, ghost tiled: bool)
      requires RingBuilt() && (tiled ==> Tiled())
      requires forall i :: 0 <= i < medias.Length ==> medias[i].LaidOutFor(vp, sc)
      modifies medias[..]
      ensures forall i :: 0 <= i < medias.Length ==>
        medias[i].State() == Updated(old(medias[i].State()), scroll, direction, medias.Length)
      ensures forall i :: 0 <= i < medias.Length ==> medias[i].LaidOutFor(vp, sc)
      ensures tiled ==> Tiled()
    {
      var n := medias.Length;
      var i := 0;
      while i < n
        invariant 0 <= i <= n
        invariant forall j :: 0 <= j < i ==>
          medias[j].State() == Updated(old(medias[j].State()), scroll, direction, n)
        invariant forall j :: 0 <= j < n ==> medias[j].LaidOutFor(vp, sc)
        invariant tiled ==> Tiled()
        invariant forall j :: i <= j < n ==> medias[j].State() == old(medias[j].State()) && medias[j].wraps == old(medias[j].wraps)
      {
        medias[i].Update(scroll, direction, n);
        i := i + 1;
      }
    }

    method OnTouchDown(clientX: real)
      modifies this
      ensures Pointer() == Pressed(old(Pointer()), clientX)
      ensures current == old(current) && last == old(last) && ease == old(ease) && viewport == old(viewport)
      ensures screen == old(screen)
    {
      isDragging := true;
      hasMoved := false;
      touchStart := clientX;
    }

    method OnTouchMove(x: real)
      modifies this
      ensures Pointer() == Moved(old(Pointer()), x)
      ensures current == old(current) && last == old(last) && ease == old(ease) && viewport == old(viewport)
      ensures screen == old(screen)
    {
      if !isDragging {
        return;
      }
      var dist := (touchStart - x) * DragSpeed;
      if Abs(dist) > DragThreshold {
        hasMoved := true;
      }
      target := target + dist * DragScale;
      touchStart := x;
    }

    method OnWheel(deltaY: real)
      modifies this
      ensures target == old(target) + deltaY * WheelScale
      ensures isDragging == old(isDragging) && hasMoved == old(hasMoved) && touchStart == old(touchStart)
      ensures current == old(current) && last == old(last) && ease == old(ease) && viewport == old(viewport)
      ensures screen == old(screen)
    {
      target := target + deltaY * WheelScale;
    }

    /** The first plane in ring order whose box contains the point, if any. */
    method FindHit(worldX: real, worldY: real) returns (hit: Option<nat>)
      ensures hit.Some? ==> hit.value < medias.Length && medias[hit.value].HitTest(worldX, worldY)
      ensures hit.Some? ==> forall j :: 0 <= j < hit.value ==> !medias[j].HitTest(worldX, worldY)
      ensures hit.None? ==> forall j :: 0 <= j < medias.Length ==> !medias[j].HitTest(worldX, worldY)
    {
      var i := 0;
      while i < medias.Length
        invariant 0 <= i <= medias.Length
        invariant forall j :: 0 <= j < i ==> !medias[j].HitTest(worldX, worldY)
      {
        if medias[i].HitTest(worldX, worldY) {
          return Some(i);
        }
        i := i + 1;
      }
      return None;
    }

    /** onTouchUp: ends the press; a tap (no long step since the last press) clicks the
        first plane under the pointer, and nothing else ever clicks. */
    method OnTouchUp(clientX: real, clientY: real, rect: Rect) returns (clicked: Option<Item>)
      requires rect.width > 0.0 && rect.height > 0.0
      modifies this
      ensures !isDragging && hasMoved == old(hasMoved) && touchStart == old(touchStart) && target == old(target)
      ensures current == old(current) && last == old(last) && ease == old(ease) && viewport == old(viewport)
      ensures screen == old(screen)
      ensures old(hasMoved) ==> clicked == None
      ensures !old(hasMoved) ==>
        var (wx, wy) := ToWorld(clientX, clientY, rect, viewport);
        && (clicked == None <==> forall j :: 0 <= j < medias.Length ==> !medias[j].HitTest(wx, wy))
        && (clicked.Some? ==>
              exists k :: 0 <= k < medias.Length && medias[k].HitTest(wx, wy)
                && (forall j :: 0 <= j < k ==> !medias[j].HitTest(wx, wy))
                && clicked.value == Item(medias[k].image, medias[k].text))
    {
      isDragging := false;
      clicked := None;
      if !hasMoved {
        var (worldX, worldY) := ToWorld(clientX, clientY, rect, viewport);
        var hit := FindHit(worldX, worldY);
        if hit.Some? {
          var media := medias[hit.value];
          clicked := Some(Item(media.image, media.text));
        }
      }
    }
  }
}
