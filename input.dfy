/** Pointer input: the record kept for the mouse or touch contact, in
    normalised texture coordinates (y pointing up), and its updates on
    contact start and on move. */
module Input {

  datatype Color = Color(r: real, g: real, b: real)

  /** The colours a stroke may be given: blue and green. */
  const Palette: seq<Color> := [Color(0.0, 0.38, 1.0), Color(0.0, 1.0, 0.53)]

  /** scaleByPixelRatio: CSS pixels to device pixels, rounded down; a device
      pixel ratio of 0 (absent) counts as 1. */
  function ScaleByPixelRatio(input: real, devicePixelRatio: real): (r: int)
    ensures var ratio := if devicePixelRatio == 0.0 then 1.0 else devicePixelRatio;
      r as real <= input * ratio < r as real + 1.0
  {
    (input * (if devicePixelRatio == 0.0 then 1.0 else devicePixelRatio)).Floor
  }

  /** The factor a texture-coordinate step is scaled by along one axis: the
      ratio of this side to the other when it is greater than 1, else 1. */
  function AxisScale(side: int, other: int): (s: real)
    requires side >= 1 && other >= 1
    ensures s >= 1.0
    ensures side <= other ==> s == 1.0
    ensures s * (other as real) == (if side > other then side as real else other as real)
  {
    var ratio := (side as real) / (other as real);
    if ratio > 1.0 then ratio else 1.0
  }

  /** A step scaled by a factor of at least one is zero only if the step is. */
  lemma ScaledZero(step: real, factor: real)
    requires factor >= 1.0
    ensures step * factor == 0.0 <==> step == 0.0
  {
    if step != 0.0 {
      assert step * factor != 0.0;
    }
  }

  function Abs(x: real): real
  {
    if x < 0.0 then -x else x
  }

  /** Device pixel column `x` as a texture coordinate. */
  function TexcoordX(x: int, canvasWidth: int): real
    requires canvasWidth >= 1
  {
    (x as real) / (canvasWidth as real)
  }

  /** Device pixel row `y` (counted from the top) as a texture coordinate
      counted from the bottom. */
  function TexcoordY(y: int, canvasHeight: int): real
    requires canvasHeight >= 1
  {
    1.0 - (y as real) / (canvasHeight as real)
  }

  /** Texture coordinates tell device pixels apart. */
  lemma TexcoordsInjective(x1: int, y1: int, x2: int, y2: int, canvasWidth: int, canvasHeight: int)
    requires canvasWidth >= 1 && canvasHeight >= 1
    ensures TexcoordX(x1, canvasWidth) == TexcoordX(x2, canvasWidth) <==> x1 == x2
    ensures TexcoordY(y1, canvasHeight) == TexcoordY(y2, canvasHeight) <==> y1 == y2
  {
    var w, h := canvasWidth as real, canvasHeight as real;
    if (x1 as real) / w == (x2 as real) / w {
      assert x1 as real == ((x1 as real) / w) * w;
      assert x2 as real == ((x2 as real) / w) * w;
    }
    if (y1 as real) / h == (y2 as real) / h {
      assert y1 as real == ((y1 as real) / h) * h;
      assert y2 as real == ((y2 as real) / h) * h;
    }
  }

  /** A snapshot of every field of a pointer. */
  datatype PointerState = PointerState(
    id: int,
    texcoordX: real,
    texcoordY: real,
    prevTexcoordX: real,
    prevTexcoordY: real,
    deltaX: real,
    deltaY: real,
    down: bool,
    moved: bool,
    color: Color)

  /** A new pointer: no contact, at the origin, black. */
  const InitialPointer: PointerState :=
    PointerState(-1, 0.0, 0.0, 0.0, 0.0, 0.0, 0.0, false, false, Color(0.0, 0.0, 0.0))

  /** The pointer after updatePointerDownData: down, not moved, previous
      position equal to the current one, no delta. */
  function DownState(id: int, x: int, y: int, canvasWidth: int, canvasHeight: int, color: Color): (s: PointerState)
    requires canvasWidth >= 1 && canvasHeight >= 1
    ensures s.down && !s.moved && s.id == id && s.color == color
    ensures s.prevTexcoordX == s.texcoordX && s.prevTexcoordY == s.texcoordY
    ensures s.deltaX == 0.0 && s.deltaY == 0.0
  {
    var tx, ty := TexcoordX(x, canvasWidth), TexcoordY(y, canvasHeight);
    PointerState(id, tx, ty, tx, ty, 0.0, 0.0, true, false, color)
  }

  /** The pointer after updatePointerMoveData: the old position becomes the
      previous one, the delta is the aspect-corrected step, and it is marked
      moved exactly when the position changed. */
  function MoveState(s: PointerState, x: int, y: int, color: Color, canvasWidth: int, canvasHeight: int): (r: PointerState)
    requires canvasWidth >= 1 && canvasHeight >= 1
    ensures r.prevTexcoordX == s.texcoordX && r.prevTexcoordY == s.texcoordY
    ensures r.texcoordX == TexcoordX(x, canvasWidth) && r.texcoordY == TexcoordY(y, canvasHeight)
    ensures r.deltaX == (r.texcoordX - s.texcoordX) * AxisScale(canvasWidth, canvasHeight)
    ensures r.deltaY == (r.texcoordY - s.texcoordY) * AxisScale(canvasHeight, canvasWidth)
    ensures r.moved <==> r.texcoordX != s.texcoordX || r.texcoordY != s.texcoordY
    ensures r.moved <==> r.deltaX != 0.0 || r.deltaY != 0.0
    ensures r.id == s.id && r.down == s.down && r.color == color
  {
    var tx, ty := TexcoordX(x, canvasWidth), TexcoordY(y, canvasHeight);
    var kx, ky := AxisScale(canvasWidth, canvasHeight), AxisScale(canvasHeight, canvasWidth);
    var dx, dy := (tx - s.texcoordX) * kx, (ty - s.texcoordY) * ky;
    ScaledZero(tx - s.texcoordX, kx);
    ScaledZero(ty - s.texcoordY, ky);
    assert (Abs(dx) > 0.0 || Abs(dy) > 0.0) <==> (tx != s.texcoordX || ty != s.texcoordY);
    s.(prevTexcoordX := s.texcoordX, prevTexcoordY := s.texcoordY,
       texcoordX := tx, texcoordY := ty,
       deltaX := dx, deltaY := dy,
       moved := Abs(dx) > 0.0 || Abs(dy) > 0.0,
       color := color)
  }

  /** Moving to the point a contact has just started at changes nothing: the
      implicit press of the first mouse move does not count as a move. */
  lemma MoveToDownPointIsStill(id: int, x: int, y: int, canvasWidth: int, canvasHeight: int, color: Color)
    requires canvasWidth >= 1 && canvasHeight >= 1
    ensures var d := DownState(id, x, y, canvasWidth, canvasHeight, color);
      MoveState(d, x, y, color, canvasWidth, canvasHeight) == d
  {
  }

  /** Two moves before a frame leave only the second step: the delta is the
      one from the first move's point to the second's, whatever came before. */
  lemma SecondMoveWins(s: PointerState, x1: int, y1: int, x2: int, y2: int, color: Color,
                       canvasWidth: int, canvasHeight: int)
    requires canvasWidth >= 1 && canvasHeight >= 1
    ensures var once := MoveState(s, x1, y1, color, canvasWidth, canvasHeight);
      var twice := MoveState(once, x2, y2, color, canvasWidth, canvasHeight);
      && twice.deltaX == (TexcoordX(x2, canvasWidth) - TexcoordX(x1, canvasWidth)) * AxisScale(canvasWidth, canvasHeight)
      && twice.deltaY == (TexcoordY(y2, canvasHeight) - TexcoordY(y1, canvasHeight)) * AxisScale(canvasHeight, canvasWidth)
      && (twice.moved <==> x1 != x2 || y1 != y2)
  {
    TexcoordsInjective(x1, y1, x2, y2, canvasWidth, canvasHeight);
  }

  class Pointer {
    var id: int
    var texcoordX: real
    var texcoordY: real
    var prevTexcoordX: real
    var prevTexcoordY: real
    var deltaX: real
    var deltaY: real
    var down: bool
    var moved: bool
    var color: Color

    function State(): PointerState
      reads this
    {
      PointerState(id, texcoordX, texcoordY, prevTexcoordX, prevTexcoordY, deltaX, deltaY, down, moved, color)
    }

    constructor ()
      ensures State() == InitialPointer
    {
      id := -1;
      texcoordX, texcoordY := 0.0, 0.0;
      prevTexcoordX, prevTexcoordY := 0.0, 0.0;
      deltaX, deltaY := 0.0, 0.0;
      down, moved := false, false;
      color := Color(0.0, 0.0, 0.0);
    }

    /** updatePointerDownData: start a stroke at device pixel (x, y) of a
        canvas of the given size, with a colour from the palette. */
    method UpdateDownData(id: int, x: int, y: int, canvasWidth: int, canvasHeight: int)
      requires canvasWidth >= 1 && canvasHeight >= 1
      modifies this
      ensures color in Palette
      ensures State() == DownState(id, x, y, canvasWidth, canvasHeight, color)
    {
      this.id := id;
      down := true;
      moved := false;
      texcoordX := TexcoordX(x, canvasWidth);
      texcoordY := TexcoordY(y, canvasHeight);
      prevTexcoordX := texcoordX;
      prevTexcoordY := texcoordY;
      deltaX := 0.0;
      deltaY := 0.0;
      assert Palette[0] in Palette;
      var c :| c in Palette;
      color := c;
    }

    /** updatePointerMoveData. */
    method UpdateMoveData(x: int, y: int, color: Color, canvasWidth: int, canvasHeight: int)
      requires canvasWidth >= 1 && canvasHeight >= 1
      modifies this
      ensures State() == MoveState(old(State()), x, y, color, canvasWidth, canvasHeight)
    {
      var r := MoveState(State(), x, y, color, canvasWidth, canvasHeight);
      prevTexcoordX, prevTexcoordY := r.prevTexcoordX, r.prevTexcoordY;
      texcoordX, texcoordY := r.texcoordX, r.texcoordY;
      deltaX, deltaY := r.deltaX, r.deltaY;
      moved := r.moved;
      this.color := r.color;
    }
  }
}
