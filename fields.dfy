/** Field storage: single render targets, double-buffered fields whose two
    targets swap roles, and the grid size derived from the drawing buffer. */
module Fields {

  import opened Gpu

  /** createFBO: allocate a texture and a framebuffer around it. */
  method CreateFbo(device: Device, w: int, h: int) returns (f: Fbo)
    requires w >= 1 && h >= 1
    modifies device
    ensures f.texture == old(device.next) && f.framebuffer == old(device.next) + 1
    ensures f.width == w && f.height == h
    ensures f.texelSizeX == 1.0 / (w as real) && f.texelSizeY == 1.0 / (h as real)
    ensures device.next == old(device.next) + 2
    ensures device.log == old(device.log) + [Call.CreateTexture(f.texture, w, h),
                                             Call.CreateFramebuffer(f.framebuffer, f.texture)]
  {
    var texture := device.CreateTexture(w, h);
    var framebuffer := device.CreateFramebuffer(texture);
    f := Fbo(texture, framebuffer, w, h, 1.0 / (w as real), 1.0 / (h as real));
  }

  /** The two targets of a double-buffered field, by role. */
  datatype FboPair = FboPair(read: Fbo, write: Fbo) {
    function Swapped(): FboPair
    {
      FboPair(write, read)
    }

    function Textures(): set<Handle>
    {
      {read.texture, write.texture}
    }
  }

  /** The roles after `n` swaps. */
  function SwapN(p: FboPair, n: nat): FboPair
  {
    if n == 0 then p else SwapN(p, n - 1).Swapped()
  }

  /** Only the parity of the number of swaps matters. */
  lemma {:induction false} SwapNParity(p: FboPair, n: nat)
    ensures SwapN(p, n) == if n % 2 == 0 then p else p.Swapped()
  {
    if n > 0 {
      SwapNParity(p, n - 1);
    }
  }

  /** One swap followed by n swaps is n + 1 swaps. */
  lemma {:induction false} SwapNShift(p: FboPair, n: nat)
    ensures SwapN(p.Swapped(), n) == SwapN(p, n + 1)
  {
    if n > 0 {
      SwapNShift(p, n - 1);
    }
  }

  /** m swaps followed by n swaps are m + n swaps. */
  lemma {:induction false} SwapNAdd(p: FboPair, m: nat, n: nat)
    ensures SwapN(SwapN(p, m), n) == SwapN(p, m + n)
  {
    if n > 0 {
      SwapNAdd(p, m, n - 1);
    }
  }

  /** Swapping twice restores the roles. */
  lemma SwapTwiceRestores(p: FboPair, n: nat)
    ensures SwapN(p, n + 2) == SwapN(p, n)
    ensures p.Swapped().Swapped() == p
  {
    SwapNParity(p, n);
    SwapNParity(p, n + 2);
  }

  /** Swapping never changes which two textures a field owns. */
  lemma {:induction false} SwapNTextures(p: FboPair, n: nat)
    ensures SwapN(p, n).Textures() == p.Textures()
  {
    if n > 0 {
      SwapNTextures(p, n - 1);
      var q := SwapN(p, n - 1);
      assert q.Swapped().Textures() == {q.write.texture, q.read.texture} == q.Textures();
    }
  }

  /** createDoubleFBO: two independently allocated targets of one shape whose
      roles `read` and `write` are exchanged by `Swap`. */
  class DoubleFbo {
    var read: Fbo
    var write: Fbo
    const width: int
    const height: int
    const texelSizeX: real
    const texelSizeY: real
    /** The roles at allocation and the number of swaps since. */
    ghost const initial: FboPair
    ghost var swaps: nat

    function Pair(): FboPair
      reads this
    {
      FboPair(read, write)
    }

    ghost predicate Valid()
      reads this
    {
      && Pair() == SwapN(initial, swaps)
      && read.texture != write.texture
      && read.width == write.width == width
      && read.height == write.height == height
      && read.texelSizeX == write.texelSizeX == texelSizeX
      && read.texelSizeY == write.texelSizeY == texelSizeY
    }

    constructor (device: Device, w: int, h: int)
      requires w >= 1 && h >= 1
      modifies device
      ensures Valid() && swaps == 0 && Pair() == initial
      ensures read.texture == old(device.next) && write.texture == old(device.next) + 2
      ensures width == w && height == h
      ensures texelSizeX == 1.0 / (w as real) && texelSizeY == 1.0 / (h as real)
      ensures device.next == old(device.next) + 4
      ensures device.log == old(device.log) + AllocationCalls(Pair())
    {
      var fbo1 := CreateFbo(device, w, h);
      var fbo2 := CreateFbo(device, w, h);
      read, write := fbo1, fbo2;
      width, height := w, h;
      texelSizeX, texelSizeY := fbo1.texelSizeX, fbo1.texelSizeY;
      initial := FboPair(fbo1, fbo2);
      swaps := 0;
    }

    /** Exchange the roles; no texture is copied. */
    method Swap()
      requires Valid()
      modifies this
      ensures Valid()
      ensures read == old(write) && write == old(read)
      ensures swaps == old(swaps) + 1
    {
      read, write := write, read;
      swaps := swaps + 1;
    }
  }

  /** The device calls that allocate the two targets of `p`. */
  function AllocationCalls(p: FboPair): seq<Call>
  {
    [Call.CreateTexture(p.read.texture, p.read.width, p.read.height),
     Call.CreateFramebuffer(p.read.framebuffer, p.read.texture),
     Call.CreateTexture(p.write.texture, p.write.width, p.write.height),
     Call.CreateFramebuffer(p.write.framebuffer, p.write.texture)]
  }

  /** Math.round on a real: the nearest integer, halves rounded up. */
  function Round(x: real): (r: int)
    ensures r as real <= x + 0.5 < r as real + 1.0
  {
    (x + 0.5).Floor
  }

  lemma RoundMonotone(x: real, y: real)
    requires x <= y
    ensures Round(x) <= Round(y)
  {
  }

  /** Scaling a non-negative value by at least one does not shrink it. */
  lemma ScaleUp(x: real, factor: real)
    requires x >= 0.0 && factor >= 1.0
    ensures x <= x * factor
  {
    assert x * factor - x == x * (factor - 1.0);
  }

  datatype Resolution = Resolution(width: int, height: int)

  /** getResolution: `resolution` cells across the shorter side of the
      drawing buffer and `resolution` times the aspect ratio across the
      longer one. */
  function GetResolution(resolution: real, bufferWidth: int, bufferHeight: int): Resolution
    requires bufferWidth >= 1 && bufferHeight >= 1
  {
    var ratio := (bufferWidth as real) / (bufferHeight as real);
    var aspectRatio := if ratio < 1.0 then 1.0 / ratio else ratio;
    var min := Round(resolution);
    var max := Round(resolution * aspectRatio);
    if bufferWidth > bufferHeight then Resolution(max, min) else Resolution(min, max)
  }

  /** The aspect ratio after inversion is the longer side over the shorter. */
  lemma AspectRatio(bufferWidth: int, bufferHeight: int)
    requires bufferWidth >= 1 && bufferHeight >= 1
    ensures var ratio := (bufferWidth as real) / (bufferHeight as real);
      (if ratio < 1.0 then 1.0 / ratio else ratio) ==
      (if bufferWidth >= bufferHeight then (bufferWidth as real) / (bufferHeight as real)
       else (bufferHeight as real) / (bufferWidth as real))
    ensures var ratio := (bufferWidth as real) / (bufferHeight as real);
      (if ratio < 1.0 then 1.0 / ratio else ratio) >= 1.0
  {
    var w, h := bufferWidth as real, bufferHeight as real;
    if w < h {
      assert w / h < 1.0;
      assert 1.0 / (w / h) == h / w;
      assert h / w >= 1.0;
    } else {
      assert w / h >= 1.0;
    }
  }

  /** A wide buffer: round(resolution * width / height) columns, round(resolution) rows. */
  lemma ResolutionWide(resolution: real, bufferWidth: int, bufferHeight: int)
    requires bufferWidth > bufferHeight >= 1
    requires resolution >= 0.0
    ensures var r := GetResolution(resolution, bufferWidth, bufferHeight);
      var w, h := bufferWidth as real, bufferHeight as real;
      r == Resolution(Round(resolution * (w / h)), Round(resolution)) && r.width >= r.height
  {
    var w, h := bufferWidth as real, bufferHeight as real;
    assert w / h * h == w;
    assert w / h >= 1.0;
    ScaleUp(resolution, w / h);
    RoundMonotone(resolution, resolution * (w / h));
  }

  /** A tall buffer: round(resolution) columns, round(resolution * height / width) rows. */
  lemma ResolutionTall(resolution: real, bufferWidth: int, bufferHeight: int)
    requires 1 <= bufferWidth < bufferHeight
    requires resolution >= 0.0
    ensures var r := GetResolution(resolution, bufferWidth, bufferHeight);
      var w, h := bufferWidth as real, bufferHeight as real;
      r == Resolution(Round(resolution), Round(resolution * (h / w))) && r.height >= r.width
  {
    var w, h := bufferWidth as real, bufferHeight as real;
    AspectRatio(bufferWidth, bufferHeight);
    assert w / h < 1.0;
    assert h / w * w == h;
    assert h / w >= 1.0;
    ScaleUp(resolution, h / w);
    RoundMonotone(resolution, resolution * (h / w));
  }

  /** The shorter side gets round(resolution) cells, the longer side
      round(resolution * longer / shorter), and so at least as many. */
  lemma ResolutionShape(resolution: real, bufferWidth: int, bufferHeight: int)
    requires bufferWidth >= 1 && bufferHeight >= 1
    requires resolution >= 0.0
    ensures var r := GetResolution(resolution, bufferWidth, bufferHeight);
      var w, h := bufferWidth as real, bufferHeight as real;
      && (bufferWidth > bufferHeight ==> r == Resolution(Round(resolution * (w / h)), Round(resolution)))
      && (bufferWidth < bufferHeight ==> r == Resolution(Round(resolution), Round(resolution * (h / w))))
      && (bufferWidth == bufferHeight ==> r == Resolution(Round(resolution), Round(resolution)))
      && (bufferWidth > bufferHeight ==> r.width >= r.height)
      && (bufferWidth <= bufferHeight ==> r.height >= r.width)
  {
    if bufferWidth > bufferHeight {
      ResolutionWide(resolution, bufferWidth, bufferHeight);
    } else if bufferWidth < bufferHeight {
      ResolutionTall(resolution, bufferWidth, bufferHeight);
    } else {
      assert (bufferWidth as real) / (bufferHeight as real) == 1.0;
    }
  }

  /** A resolution of at least one half gives every side at least one cell,
      so the texel sizes 1/width and 1/height are defined. */
  lemma ResolutionPositive(resolution: real, bufferWidth: int, bufferHeight: int)
    requires bufferWidth >= 1 && bufferHeight >= 1
    requires resolution >= 0.5
    ensures GetResolution(resolution, bufferWidth, bufferHeight).width >= 1
    ensures GetResolution(resolution, bufferWidth, bufferHeight).height >= 1
  {
    ResolutionShape(resolution, bufferWidth, bufferHeight);
    RoundMonotone(0.5, resolution);
    assert Round(0.5) == 1;
  }
}
