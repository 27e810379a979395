/** The ZOOM directive: a window of the scene, `1/zoom` of its size, centred
    on the requested point but kept inside the scene, is scaled up to fill
    the canvas (optionally rotated about the canvas centre). */
module Zoom {
  import opened Wrappers
  import opened Geometry

  /** The transform the directive redraws the scene with: scale by `zoom`
      about the window centre `(cx, cy)`, rotate by `degrees`, and put that
      centre on the canvas centre. */
  datatype ZoomView = ZoomView(zoom: real, degrees: real, cx: real, cy: real)

  /** The window centre along one axis: the requested point clamped so that
      a window of width `extent / zoom` fits the scene where it can. */
  function Centre(extent: real, zoom: real, frac: real): real
    requires zoom != 0.0
  {
    var s := extent / zoom;
    Clamp(extent * frac, s / 2.0, extent - s / 2.0)
  }

  /** The directive's view. A rotation that is not a number is ignored by
      the canvas on its own, so the view is then unrotated. The view is
      `None` when the zoom or a position is not a number, or the zoom is 0:
      the window's centre or size is then not a finite number, and the model
      does not follow what the canvas draws with such a transform. */
  function Window(sceneW: real, sceneH: real, zoom: Option<real>, degrees: Option<real>,
                  xpos: Option<real>, ypos: Option<real>): Option<ZoomView>
  {
    if zoom.None? || xpos.None? || ypos.None? || zoom.value == 0.0 then None
    else
      Some(ZoomView(zoom.value, if degrees.Some? then degrees.value else 0.0,
                    Centre(sceneW, zoom.value, xpos.value),
                    Centre(sceneH, zoom.value, ypos.value)))
  }

  /** Where scene column `x` is drawn when the view is not rotated. */
  function MapX(v: ZoomView, sceneW: real, x: real): real {
    sceneW / 2.0 + v.zoom * (x - v.cx)
  }

  function MapY(v: ZoomView, sceneH: real, y: real): real {
    sceneH / 2.0 + v.zoom * (y - v.cy)
  }

  // ---- Properties ----

  /** When zooming in, the window lies inside the scene. */
  lemma WindowInsideScene(extent: real, zoom: real, frac: real)
    requires extent >= 0.0 && zoom >= 1.0
    ensures var c := Centre(extent, zoom, frac); var s := extent / zoom;
      0.0 <= c - s / 2.0 && c + s / 2.0 <= extent
  {
    var s := extent / zoom;
    DivShrinks(extent, zoom);
    ClampBetween(extent * frac, s / 2.0, extent - s / 2.0);
  }

  /** When zooming in, a requested point far enough from the edges is the
      window centre itself. */
  lemma CentreIsRequestedPoint(extent: real, zoom: real, frac: real)
    requires zoom != 0.0
    requires extent / zoom / 2.0 <= extent * frac <= extent - extent / zoom / 2.0
    ensures Centre(extent, zoom, frac) == extent * frac
  {
  }

  /** When zooming out (0 < zoom < 1) the window is wider than the scene and
      its left edge is pinned to the scene's left edge. */
  lemma ZoomOutPinsStart(extent: real, zoom: real, frac: real)
    requires extent > 0.0 && 0.0 < zoom < 1.0
    ensures Centre(extent, zoom, frac) - extent / zoom / 2.0 == 0.0
  {
    var s := extent / zoom;
    DivGrows(extent, zoom);
    ClampCrossed(extent * frac, s / 2.0, extent - s / 2.0);
  }

  /** Without rotation, the window's two edges are drawn on the canvas's
      two edges: the window fills the canvas exactly. */
  lemma WindowFillsCanvas(sceneW: real, sceneH: real, zoom: real, xpos: real, ypos: real)
    requires zoom != 0.0
    ensures var v := Window(sceneW, sceneH, Some(zoom), Some(0.0), Some(xpos), Some(ypos)).value;
      && MapX(v, sceneW, v.cx - sceneW / zoom / 2.0) == 0.0
      && MapX(v, sceneW, v.cx + sceneW / zoom / 2.0) == sceneW
      && MapY(v, sceneH, v.cy - sceneH / zoom / 2.0) == 0.0
      && MapY(v, sceneH, v.cy + sceneH / zoom / 2.0) == sceneH
  {
    var k := sceneW / zoom;
    assert zoom * (k / 2.0) == sceneW / 2.0 by { assert zoom * k == sceneW; }
    var j := sceneH / zoom;
    assert zoom * (j / 2.0) == sceneH / 2.0 by { assert zoom * j == sceneH; }
  }

  /** `zoom:1` without rotation redraws every point where it was. */
  lemma UnitZoomIsIdentity(sceneW: real, sceneH: real, xpos: real, ypos: real, x: real, y: real)
    ensures var v := Window(sceneW, sceneH, Some(1.0), Some(0.0), Some(xpos), Some(ypos)).value;
      MapX(v, sceneW, x) == x && MapY(v, sceneH, y) == y
  {
  }

  /** The directive's defaults (zoom 2, centre point) on a 1920 by 1080
      scene: the middle quarter of the scene. */
  lemma DefaultZoomExample()
    ensures Window(1920.0, 1080.0, Some(2.0), Some(0.0), Some(0.5), Some(0.5))
      == Some(ZoomView(2.0, 0.0, 960.0, 540.0))
  {
  }

  /** Asking for the left edge at zoom 2 on a 1920-wide scene centres the
      window at 480, a quarter of the way in. */
  lemma LeftEdgeZoomExample()
    ensures Window(1920.0, 1080.0, Some(2.0), Some(0.0), Some(0.0), Some(0.5))
      == Some(ZoomView(2.0, 0.0, 480.0, 540.0))
  {
  }

  /** A rotation that is not a number gives the unrotated view. */
  lemma NaNDegreesUnrotated(sceneW: real, sceneH: real, zoom: Option<real>, xpos: Option<real>, ypos: Option<real>)
    ensures Window(sceneW, sceneH, zoom, None, xpos, ypos) == Window(sceneW, sceneH, zoom, Some(0.0), xpos, ypos)
  {
  }
}
