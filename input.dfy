/**
 * Mouse input of the viewer (zenith_viz/cpp/Controls.cpp): the pick decision
 * of select with its window-to-framebuffer cursor mapping, the left-drag
 * translation of Controls and the right-drag rotation of Controls3d.
 *
 * Coordinates are exact reals: the float and double rounding of the source is
 * not modelled. The window system (cursor position, button and key state,
 * window and framebuffer sizes) reaches the model as parameters; the depth
 * read, the unprojection and the nearest-neighbour index reach select as
 * function parameters.
 */
module Input {

  datatype Vec3 = Vec3(x: real, y: real, z: real)

  /** The (id, point, distance) triple select returns. */
  datatype Selection = Selection(id: int, point: Vec3, distance: real)

  /** The sentinel select returns when nothing is close enough. */
  const NoMatch := Selection(-1000, Vec3(-1000.0, -1000.0, -1000.0), 1000.0)

  /** The largest distance, exclusive, at which select reports a point. */
  const PickRadius := 0.5

  /** One result of the nearest-neighbour search: the point's index in its model, the point and its distance. */
  datatype Neighbor = Neighbor(index: nat, point: Vec3, distance: real)

  /** A window position in framebuffer pixels, y counted from the bottom row. */
  datatype Pixel = Pixel(x: real, y: real)

  /** The viewport glm::unProject receives. */
  datatype Viewport = Viewport(x: int, y: int, width: int, height: int)

  // ---------------------------------------------------------------------------
  // select
  // ---------------------------------------------------------------------------

  /**
   * The decision at the end of select: only the first result of the k = 1
   * search counts; it is reported when its distance is below 0.5, otherwise
   * the sentinel is.
   */
  function Decide(nearest: seq<Neighbor>): (s: Selection)
    requires |nearest| >= 1
    ensures s.distance < PickRadius <==> nearest[0].distance < PickRadius
    ensures s.distance < PickRadius ==>
              s.id == nearest[0].index && s.point == nearest[0].point && s.distance == nearest[0].distance
    ensures !(s.distance < PickRadius) ==> s == NoMatch
    ensures s.id >= 0 <==> s.distance < PickRadius
  {
    if nearest[0].distance < PickRadius then
      Selection(nearest[0].index, nearest[0].point, nearest[0].distance)
    else
      NoMatch
  }

  /**
   * The cursor mapping of select: the cursor, in window coordinates with y
   * counted from the top, divided by the window-to-framebuffer ratios, and y
   * flipped to count from the bottom row.
   */
  function CursorToPixel(width: int, height: int, bufferWidth: int, bufferHeight: int, x: real, y: real): (p: Pixel)
    requires width > 0 && height > 0 && bufferWidth > 0 && bufferHeight > 0
    ensures p.x * width as real == x * bufferWidth as real
    ensures (bufferHeight as real - 1.0 - p.y) * height as real == y * bufferHeight as real
  {
    var xRatio := width as real / bufferWidth as real;
    var yRatio := height as real / bufferHeight as real;
    var sx := x / xRatio;
    var sy := y / yRatio;
    Pixel(sx, (height as real / yRatio) - 1.0 - sy)
  }

  /**
   * The mapping sends the window rectangle onto the framebuffer's pixel grid:
   * columns [0, bufferWidth) and, after the flip, rows (-1, bufferHeight - 1].
   */
  lemma CursorToPixelInFramebuffer(width: int, height: int, bufferWidth: int, bufferHeight: int, x: real, y: real)
    requires width > 0 && height > 0 && bufferWidth > 0 && bufferHeight > 0
    requires 0.0 <= x < width as real && 0.0 <= y < height as real
    ensures 0.0 <= CursorToPixel(width, height, bufferWidth, bufferHeight, x, y).x < bufferWidth as real
    ensures -1.0 < CursorToPixel(width, height, bufferWidth, bufferHeight, x, y).y <= bufferHeight as real - 1.0
  {
    var p := CursorToPixel(width, height, bufferWidth, bufferHeight, x, y);
    ScaleIntoRange(p.x, x, width as real, bufferWidth as real);
    ScaleIntoRange(bufferHeight as real - 1.0 - p.y, y, height as real, bufferHeight as real);
  }

  /** u = x * bw / w maps [0, w) into [0, bw). */
  lemma ScaleIntoRange(u: real, x: real, w: real, bw: real)
    requires w > 0.0 && bw > 0.0 && 0.0 <= x < w && u * w == x * bw
    ensures 0.0 <= u < bw
  {
    assert u == (x * bw) / w;
    assert x * bw < w * bw;
    assert (x * bw) / w < (w * bw) / w;
    assert (w * bw) / w == bw;
  }

  /** A 1024x768 window on a 2048x1536 framebuffer maps the cursor (512, 384) to pixel (1024, 767). */
  lemma RetinaCursorExample()
    ensures CursorToPixel(1024, 768, 2048, 1536, 512.0, 384.0) == Pixel(1024.0, 767.0)
  {
  }

  /** The unprojection viewport of select: the window size divided by the ratios, truncated: the framebuffer size. */
  function SelectViewport(width: int, height: int, bufferWidth: int, bufferHeight: int): (v: Viewport)
    requires width > 0 && height > 0 && bufferWidth > 0 && bufferHeight > 0
    ensures v == Viewport(0, 0, bufferWidth, bufferHeight)
  {
    var xRatio := width as real / bufferWidth as real;
    var yRatio := height as real / bufferHeight as real;
    assert width as real / xRatio == bufferWidth as real;
    assert height as real / yRatio == bufferHeight as real;
    Viewport(0, 0, (width as real / xRatio).Floor, (height as real / yRatio).Floor)
  }

  /**
   * select: map the cursor, read the depth there, unproject to model space with
   * the framebuffer viewport, query the index for one neighbour and decide.
   * The index must answer every query with at least one result (an empty
   * index makes the source fail on distances->at(0)).
   */
  function Select(width: int, height: int, bufferWidth: int, bufferHeight: int, x: real, y: real,
                  depthAt: (real, real) -> real,
                  unproject: (Vec3, Viewport) -> Vec3,
                  search: Vec3 -> seq<Neighbor>): (s: Selection)
    requires width > 0 && height > 0 && bufferWidth > 0 && bufferHeight > 0
    requires forall q :: |search(q)| >= 1
    ensures var p := CursorToPixel(width, height, bufferWidth, bufferHeight, x, y);
            var q := unproject(Vec3(p.x, p.y, depthAt(p.x, p.y)), Viewport(0, 0, bufferWidth, bufferHeight));
            && (s == NoMatch <==> !(search(q)[0].distance < PickRadius))
            && (s != NoMatch ==>
                  s == Selection(search(q)[0].index, search(q)[0].point, search(q)[0].distance)
                  && s.distance < PickRadius)
  {
    var p := CursorToPixel(width, height, bufferWidth, bufferHeight, x, y);
    var window := Vec3(p.x, p.y, depthAt(p.x, p.y));
    var query := unproject(window, SelectViewport(width, height, bufferWidth, bufferHeight));
    Decide(search(query))
  }

  // ---------------------------------------------------------------------------
  // Dragging
  // ---------------------------------------------------------------------------

  datatype Cursor = Cursor(x: real, y: real)

  /** The outcome of one getTranslationVector call: the translation and the remembered cursor. */
  datatype DragOutcome = DragOutcome(translation: Vec3, last: Cursor)

  /**
   * getTranslationVector on its own: released, remember the cursor and move
   * nothing; pressed without shift, move by the cursor's displacement scaled by
   * mouseSpeed over the window size (x with the cursor, y against it, since
   * window y grows downwards) and remember the cursor; pressed with shift, move
   * nothing and keep the remembered cursor.
   */
  function DragStep(last: Cursor, cursor: Cursor, pressed: bool, shift: bool,
                    width: real, height: real, mouseSpeed: real): (r: DragOutcome)
    requires width != 0.0 && height != 0.0
    ensures pressed && !shift ==>
              r.translation == Vec3(-Scaled(last.x - cursor.x, width, mouseSpeed), Scaled(last.y - cursor.y, height, mouseSpeed), 0.0)
    ensures !(pressed && !shift) ==> r.translation == Vec3(0.0, 0.0, 0.0)
    ensures r.last == if pressed && shift then last else cursor
  {
    var last' := if !pressed then cursor else last;
    if pressed && !shift then
      var changeX := Scaled(last'.x - cursor.x, width, mouseSpeed);
      var changeY := Scaled(last'.y - cursor.y, height, mouseSpeed);
      DragOutcome(Vec3(-changeX, changeY, 0.0), cursor)
    else
      DragOutcome(Vec3(0.0, 0.0, 0.0), last')
  }

  /** The summed translation of a drag along a path with the button held and no shift. */
  function DragPath(last: Cursor, path: seq<Cursor>, width: real, height: real, mouseSpeed: real): Vec3
    requires width != 0.0 && height != 0.0
    decreases |path|
  {
    if |path| == 0 then Vec3(0.0, 0.0, 0.0)
    else
      var step := DragStep(last, path[0], true, false, width, height, mouseSpeed);
      var rest := DragPath(step.last, path[1..], width, height, mouseSpeed);
      Vec3(step.translation.x + rest.x, step.translation.y + rest.y, 0.0)
  }

  /** A cursor displacement over a window dimension, times a speed. */
  function Scaled(d: real, size: real, speed: real): real
    requires size != 0.0
  {
    d / size * speed
  }

  /** Scaled displacements add up along a path. */
  lemma ScaledSplit(a: real, b: real, c: real, size: real, speed: real)
    requires size != 0.0
    ensures Scaled(b - a, size, speed) + Scaled(c - b, size, speed) == Scaled(c - a, size, speed)
  {
    assert (b - a) / size + (c - b) / size == (c - a) / size;
  }

  /**
   * A drag translates by the total displacement between the cursor remembered
   * before it and the cursor at its end: the steps telescope, however many
   * frames the drag takes.
   */
  lemma {:induction false} DragPathTelescopes(last: Cursor, path: seq<Cursor>, width: real, height: real, mouseSpeed: real)
    requires width != 0.0 && height != 0.0 && |path| > 0
    ensures DragPath(last, path, width, height, mouseSpeed) ==
            Vec3(-Scaled(last.x - path[|path| - 1].x, width, mouseSpeed),
                 Scaled(last.y - path[|path| - 1].y, height, mouseSpeed), 0.0)
    decreases |path|
  {
    if |path| > 1 {
      DragPathTelescopes(path[0], path[1..], width, height, mouseSpeed);
      assert path[1..][|path[1..]| - 1] == path[|path| - 1];
      ScaledSplit(path[|path| - 1].x, path[0].x, last.x, width, mouseSpeed);
      ScaledSplit(path[|path| - 1].y, path[0].y, last.y, height, mouseSpeed);
    }
  }

  /** The rotation getRotationMatrix returns: rot(aboutY) about the y axis times rot(aboutX) about the x axis. */
  datatype Rotation = Rotation(aboutY: real, aboutX: real)

  const IdentityRotation := Rotation(0.0, 0.0)

  /** The state of Controls3d's rotation: its own remembered cursor and the two angles. */
  datatype RotationState = RotationState(last: Cursor, angleX: real, angleY: real)

  /**
   * Controls3d::getRotationMatrix on its own: while the right button is
   * pressed, each angle grows by the cursor's displacement against the
   * remembered cursor, scaled by rotateSpeed over the window size; the cursor
   * is remembered whether or not the button is pressed.
   */
  function RotateStep(s: RotationState, cursor: Cursor, pressed: bool,
                      width: real, height: real, rotateSpeed: real): (r: RotationState)
    requires width != 0.0 && height != 0.0
    ensures r.last == cursor
    ensures pressed ==> r.angleX == s.angleX + Scaled(s.last.x - cursor.x, width, rotateSpeed)
    ensures pressed ==> r.angleY == s.angleY + Scaled(s.last.y - cursor.y, height, rotateSpeed)
    ensures !pressed ==> r.angleX == s.angleX && r.angleY == s.angleY
  {
    if pressed then
      RotationState(cursor, s.angleX + Scaled(s.last.x - cursor.x, width, rotateSpeed),
                    s.angleY + Scaled(s.last.y - cursor.y, height, rotateSpeed))
    else
      RotationState(cursor, s.angleX, s.angleY)
  }

  /** A sequence of getRotationMatrix calls, one per frame, each with its cursor and button state. */
  function RotatePath(s: RotationState, path: seq<Cursor>, pressed: seq<bool>,
                      width: real, height: real, rotateSpeed: real): RotationState
    requires width != 0.0 && height != 0.0 && |pressed| == |path|
    decreases |path|
  {
    if |path| == 0 then s
    else RotatePath(RotateStep(s, path[0], pressed[0], width, height, rotateSpeed), path[1..], pressed[1..],
                    width, height, rotateSpeed)
  }

  /**
   * With the right button held throughout, the angles grow by the total
   * displacement from the remembered cursor to the last one.
   */
  lemma {:induction false} RotatePathTelescopes(s: RotationState, path: seq<Cursor>, pressed: seq<bool>,
                                                width: real, height: real, rotateSpeed: real)
    requires width != 0.0 && height != 0.0 && |pressed| == |path| && |path| > 0
    requires forall k :: 0 <= k < |pressed| ==> pressed[k]
    ensures RotatePath(s, path, pressed, width, height, rotateSpeed) ==
            RotationState(path[|path| - 1],
                          s.angleX + Scaled(s.last.x - path[|path| - 1].x, width, rotateSpeed),
                          s.angleY + Scaled(s.last.y - path[|path| - 1].y, height, rotateSpeed))
    decreases |path|
  {
    assert pressed[0];
    var s' := RotateStep(s, path[0], true, width, height, rotateSpeed);
    if |path| > 1 {
      var last := path[|path| - 1];
      assert forall k :: 0 <= k < |pressed[1..]| ==> pressed[1..][k] == pressed[k + 1];
      RotatePathTelescopes(s', path[1..], pressed[1..], width, height, rotateSpeed);
      assert path[1..][|path[1..]| - 1] == last;
      ScaledSplit(last.x, path[0].x, s.last.x, width, rotateSpeed);
      ScaledSplit(last.y, path[0].y, s.last.y, height, rotateSpeed);
    }
  }

  /**
   * Frames without the button do not rotate, but they move the remembered
   * cursor: a later drag counts only from where the button went down.
   */
  lemma {:induction false} ReleasedFramesKeepAngles(s: RotationState, path: seq<Cursor>, pressed: seq<bool>,
                                                    width: real, height: real, rotateSpeed: real)
    requires width != 0.0 && height != 0.0 && |pressed| == |path| && |path| > 0
    requires forall k :: 0 <= k < |pressed| ==> !pressed[k]
    ensures RotatePath(s, path, pressed, width, height, rotateSpeed) == RotationState(path[|path| - 1], s.angleX, s.angleY)
    decreases |path|
  {
    if |path| > 1 {
      assert forall k :: 0 <= k < |pressed[1..]| ==> pressed[1..][k] == pressed[k + 1];
      ReleasedFramesKeepAngles(RotateStep(s, path[0], false, width, height, rotateSpeed), path[1..], pressed[1..],
                               width, height, rotateSpeed);
      assert path[1..][|path[1..]| - 1] == path[|path| - 1];
    }
  }

  // ---------------------------------------------------------------------------
  // The drag speed
  // ---------------------------------------------------------------------------

  /** Controls::scrollOffset before the first scroll. */
  const InitialScrollOffset := 100.0

  /**
   * The speed Engine::animate gives the controls each frame: the scroll offset
   * over the mean of the two dimensions, inverted and divided into that mean
   * again, which gives back the scroll offset.
   */
  function FrameSpeed2D(scrollOffset: real, width: int, height: int): (speed: real)
    requires width + height != 0 && scrollOffset != 0.0
    ensures speed == scrollOffset
  {
    var magnitude := (width + height) as real / 2.0;
    var scrollFactor := scrollOffset / magnitude;
    assert 1.0 / scrollFactor == magnitude / scrollOffset;
    magnitude / (1.0 / scrollFactor)
  }

  /**
   * The speed Engine3d::animate gives the controls each frame: the size of the
   * scroll offset times the framebuffer's aspect ratio.
   */
  function FrameSpeed3D(scrollOffset: real, width: int, height: int): (speed: real)
    requires height != 0
    ensures speed * height as real == (if scrollOffset < 0.0 then -scrollOffset else scrollOffset) * width as real
    ensures width >= 0 && height > 0 ==> speed >= 0.0
    ensures width > 0 ==> (speed == 0.0 <==> scrollOffset == 0.0)
  {
    var size := if scrollOffset < 0.0 then -scrollOffset else scrollOffset;
    size * width as real / height as real
  }

  /**
   * Before any scroll the drag speed of the first frame is the scroll offset
   * 100 in 2D and 400/3 in 3D on a 1024x768 framebuffer, not the 20 the
   * engine is constructed with.
   */
  lemma FirstFrameSpeed()
    ensures FrameSpeed2D(InitialScrollOffset, 1024, 768) == 100.0
    ensures FrameSpeed3D(InitialScrollOffset, 1024, 768) == 400.0 / 3.0
  {
  }

  /** The 2D controls: the remembered cursor of the left drag. */
  class Controls {
    var lastX: real
    var lastY: real
    /** The drag speed, which the engine overwrites every frame. */
    var mouseSpeed: real

    /** The constructor remembers the cursor position at creation. */
    constructor (mouseSpeed: real, cursor: Cursor)
      ensures lastX == cursor.x && lastY == cursor.y && this.mouseSpeed == mouseSpeed
    {
      lastX := cursor.x;
      lastY := cursor.y;
      this.mouseSpeed := mouseSpeed;
    }

    /** getTranslationVector, an exact step of DragStep on the object's remembered cursor. */
    method TranslationVector(width: real, height: real, pressed: bool, shift: bool, cursor: Cursor) returns (v: Vec3)
      requires width != 0.0 && height != 0.0
      modifies this`lastX, this`lastY
      ensures var r := DragStep(Cursor(old(lastX), old(lastY)), cursor, pressed, shift, width, height, mouseSpeed);
              v == r.translation && Cursor(lastX, lastY) == r.last
    {
      if !pressed {
        lastX := cursor.x;
        lastY := cursor.y;
      }
      if pressed && !shift {
        var changeX := (lastX - cursor.x) / width * mouseSpeed;
        var changeY := (lastY - cursor.y) / height * mouseSpeed;
        lastX := cursor.x;
        lastY := cursor.y;
        v := Vec3(-changeX, changeY, 0.0);
      } else {
        v := Vec3(0.0, 0.0, 0.0);
      }
    }

    /** The base getRotationMatrix: the 2D viewer never rotates. */
    function RotationMatrix(width: int, height: int): (r: Rotation)
      ensures r == IdentityRotation
    {
      Rotation(0.0, 0.0)
    }
  }

  /**
   * The 3D controls. Controls3d declares its own last_x and last_y, which
   * shadow those of Controls: the translation (inherited, on the base fields)
   * and the rotation (on the shadowing fields) remember separate cursors. The
   * model keeps the base part as a separate object.
   */
  class Controls3d {
    const base: Controls
    var lastX: real
    var lastY: real
    var lastAngleX: real
    var lastAngleY: real
    var angleX: real
    var angleY: real
    /** Controls3d's own mouseSpeed, which also shadows the base one; nothing reads it. */
    var mouseSpeed: real
    const rotateSpeed: real

    /** Angles start at 0 with rotateSpeed 3; both cursor memories start at the cursor. */
    constructor (mouseSpeed: real, cursor: Cursor)
      ensures fresh(base) && base.lastX == cursor.x && base.lastY == cursor.y && base.mouseSpeed == mouseSpeed
      ensures lastX == cursor.x && lastY == cursor.y && this.mouseSpeed == mouseSpeed
      ensures angleX == 0.0 && angleY == 0.0 && lastAngleX == 0.0 && lastAngleY == 0.0
      ensures rotateSpeed == 3.0
    {
      base := new Controls(mouseSpeed, cursor);
      this.mouseSpeed := mouseSpeed;
      lastX := cursor.x;
      lastY := cursor.y;
      rotateSpeed := 3.0;
      lastAngleX := 0.0;
      lastAngleY := 0.0;
      angleX := 0.0;
      angleY := 0.0;
    }

    /**
     * Controls3d::getRotationMatrix, an exact step of RotateStep; the base
     * cursor memory of the translation is untouched.
     */
    method RotationMatrix(width: int, height: int, pressed: bool, cursor: Cursor) returns (r: Rotation)
      requires width != 0 && height != 0
      modifies this`lastX, this`lastY, this`angleX, this`angleY, this`lastAngleX, this`lastAngleY
      ensures RotationState(Cursor(lastX, lastY), angleX, angleY) ==
              RotateStep(RotationState(Cursor(old(lastX), old(lastY)), old(angleX), old(angleY)), cursor, pressed,
                         width as real, height as real, rotateSpeed)
      ensures lastAngleX == angleX && lastAngleY == angleY
      ensures r == Rotation(angleX, angleY)
    {
      if pressed {
        var changeX := (lastX - cursor.x) / width as real * rotateSpeed;
        var changeY := (lastY - cursor.y) / height as real * rotateSpeed;
        angleX := angleX + changeX;
        angleY := angleY + changeY;
      }
      lastAngleX := angleX;
      lastAngleY := angleY;
      lastX := cursor.x;
      lastY := cursor.y;
      r := Rotation(angleX, angleY);
    }
  }
}
