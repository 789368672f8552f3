/** The driver: the canvas, the five render targets, the display material
    and the pointer, the per-frame update (resize, pointer splats, one
    simulation step, display) and the input handlers. */
module Simulation {

  import opened Wrappers
  import opened Gpu
  import opened Fields
  import opened Shaders
  import opened Schedule
  import opened Input

  /** Math.min((now - lastUpdateTime) / 1000, 0.016666): the elapsed time in
      seconds, capped at MaxDt. */
  function ClampDt(elapsedMs: int): (dt: real)
    ensures dt <= MaxDt
    ensures dt <= (elapsedMs as real) / 1000.0
    ensures dt == MaxDt || dt == (elapsedMs as real) / 1000.0
  {
    var seconds := (elapsedMs as real) / 1000.0;
    if seconds < MaxDt then seconds else MaxDt
  }

  /** The keyword list the display material is given. */
  function DisplayKeywords(shading: bool): seq<string>
  {
    if shading then ["SHADING"] else []
  }

  /** The two ways of drawing the dye select two different programs. */
  lemma DisplayVariantsDiffer()
    ensures KeywordsKey(DisplayKeywords(true)) != KeywordsKey(DisplayKeywords(false))
  {
    DisplayVariantKeysDiffer();
  }

  /** The device calls that allocate one render target. */
  function FboCalls(f: Fbo): seq<Call>
  {
    [Call.CreateTexture(f.texture, f.width, f.height), Call.CreateFramebuffer(f.framebuffer, f.texture)]
  }

  /** The splat a moved pointer makes: at its position, with its delta times
      the splat force and its colour. */
  function SplatOf(p: PointerState, splatForce: real): SplatArgs
  {
    SplatArgs(p.texcoordX, p.texcoordY, p.deltaX * splatForce, p.deltaY * splatForce, p.color)
  }

  /** The splats of one frame: one per moved pointer, in pointer order. */
  function MovedSplats(pointers: seq<PointerState>, splatForce: real): seq<SplatArgs>
  {
    if pointers == [] then []
    else
      var n := |pointers| - 1;
      MovedSplats(pointers[..n], splatForce) +
      (if pointers[n].moved then [SplatOf(pointers[n], splatForce)] else [])
  }

  /** MovedSplats is the per-pointer rule applied piece by piece: a pointer
      that has not moved adds nothing, one that has adds exactly its splat. */
  lemma {:induction false} MovedSplatsAppend(a: seq<PointerState>, b: seq<PointerState>, splatForce: real)
    ensures MovedSplats(a + b, splatForce) == MovedSplats(a, splatForce) + MovedSplats(b, splatForce)
    decreases |b|
  {
    if b == [] {
      assert a + b == a;
    } else {
      var n := |b| - 1;
      assert (a + b)[..|a| + n] == a + b[..n];
      assert (a + b)[|a| + n] == b[n];
      MovedSplatsAppend(a, b[..n], splatForce);
    }
  }

  /** No pointer moved, no splat. */
  lemma {:induction false} StillPointersDoNotSplat(pointers: seq<PointerState>, splatForce: real)
    requires forall k :: 0 <= k < |pointers| ==> !pointers[k].moved
    ensures MovedSplats(pointers, splatForce) == []
  {
    if pointers != [] {
      StillPointersDoNotSplat(pointers[..|pointers| - 1], splatForce);
    }
  }

  /** There are never more splats than pointers. */
  lemma {:induction false} MovedSplatsBound(pointers: seq<PointerState>, splatForce: real)
    ensures |MovedSplats(pointers, splatForce)| <= |pointers|
  {
    if pointers != [] {
      MovedSplatsBound(pointers[..|pointers| - 1], splatForce);
    }
  }

  /** One more pointer adds its splat, if it moved. */
  lemma MovedSplatsStep(states: seq<PointerState>, i: nat, splatForce: real)
    requires i < |states|
    ensures MovedSplats(states[..i + 1], splatForce)
         == MovedSplats(states[..i], splatForce) + (if states[i].moved then [SplatOf(states[i], splatForce)] else [])
  {
    assert states[..i + 1][..i] == states[..i];
  }

  /** One turn of the pointer loop extends the splats of the pointers before
      it by the splat of this pointer, if it moved. */
  lemma PointerLoopStep(states: seq<PointerState>, i: nat, splatForce: real, velocity: FboPair, dye: FboPair,
                        radius: real, aspectRatio: real, log0: seq<Call>, before: seq<Call>, after: seq<Call>)
    requires i < |states|
    requires before == log0 + SplatDraws(MovedSplats(states[..i], splatForce), velocity, dye, radius, aspectRatio)
    requires var n := |MovedSplats(states[..i], splatForce)|;
      after == before +
        (if states[i].moved
         then SplatPair(SplatOf(states[i], splatForce), SwapN(velocity, n), SwapN(dye, n), radius, aspectRatio)
         else [])
    ensures after == log0 + SplatDraws(MovedSplats(states[..i + 1], splatForce), velocity, dye, radius, aspectRatio)
    ensures |MovedSplats(states[..i + 1], splatForce)| ==
            |MovedSplats(states[..i], splatForce)| + (if states[i].moved then 1 else 0)
  {
    var done := MovedSplats(states[..i], splatForce);
    MovedSplatsStep(states, i, splatForce);
    if states[i].moved {
      SplatDrawsSnoc(done, SplatOf(states[i], splatForce), velocity, dye, radius, aspectRatio);
    } else {
      assert done + [] == done;
    }
  }

  /** Allocating the five targets draws nothing. */
  lemma AllocationHasNoDraws(dye: FboPair, velocity: FboPair, divergence: Fbo, curl: Fbo, pressure: FboPair)
    ensures NoDraws(AllocationCalls(dye) + AllocationCalls(velocity) + FboCalls(divergence) + FboCalls(curl)
                    + AllocationCalls(pressure))
  {
    var calls := AllocationCalls(dye) + AllocationCalls(velocity) + FboCalls(divergence) + FboCalls(curl)
                 + AllocationCalls(pressure);
    assert |calls| == 16;
    forall k | 0 <= k < 16 ensures !calls[k].Draw? {
      assert calls[k].CreateTexture? || calls[k].CreateFramebuffer?;
    }
  }

  /** The snapshots of a list of pointers. */
  function StatesOf(pointers: seq<Pointer>): (r: seq<PointerState>)
    reads pointers
    ensures |r| == |pointers|
    ensures forall k :: 0 <= k < |pointers| ==> r[k] == pointers[k].State()
  {
    if pointers == [] then []
    else StatesOf(pointers[..|pointers| - 1]) + [pointers[|pointers| - 1].State()]
  }

  /** A pointer after the frame has consumed its movement. */
  function Consumed(p: PointerState): PointerState
  {
    p.(moved := false)
  }

  /** Every pointer of the list with its movement consumed. */
  function ConsumedAll(pointers: seq<PointerState>): (r: seq<PointerState>)
    ensures |r| == |pointers|
    ensures forall k :: 0 <= k < |pointers| ==> r[k] == Consumed(pointers[k])
  {
    if pointers == [] then [] else ConsumedAll(pointers[..|pointers| - 1]) + [Consumed(pointers[|pointers| - 1])]
  }

  /** One simulation's state. */
  class Fluid {
    const device: Device
    const config: Config
    const display: Material
    const pointers: seq<Pointer>
    var canvasWidth: int
    var canvasHeight: int
    var dye: DoubleFbo
    var velocity: DoubleFbo
    var divergence: Fbo
    var curl: Fbo
    var pressure: DoubleFbo
    var lastUpdateTime: int

    /** What holds independently of the render targets. */
    ghost predicate Base()
      reads this, display
    {
      && canvasWidth >= 1 && canvasHeight >= 1
      && config.simResolution >= 0.5 && config.dyeResolution >= 0.5
      && display.Valid() && display.device == device
      && |pointers| >= 1
      && (forall i, j :: 0 <= i < j < |pointers| ==> pointers[i] != pointers[j])
    }

    /** The render targets are sized for the current canvas. */
    ghost predicate Sized()
      reads this
      requires canvasWidth >= 1 && canvasHeight >= 1
    {
      var sim := GetResolution(config.simResolution, canvasWidth, canvasHeight);
      var dyeRes := GetResolution(config.dyeResolution, canvasWidth, canvasHeight);
      && dye.width == dyeRes.width && dye.height == dyeRes.height
      && velocity.width == sim.width && velocity.height == sim.height
      && pressure.width == sim.width && pressure.height == sim.height
      && divergence.width == sim.width && divergence.height == sim.height
      && curl.width == sim.width && curl.height == sim.height
    }

    /** The three double-buffered fields are three objects with valid roles,
        and no two targets share a texture.  Swaps only permute roles, so
        the textures are compared in their roles at allocation. */
    ghost predicate FieldsValid()
      reads this, velocity, pressure, dye
    {
      && velocity != pressure && velocity != dye && pressure != dye
      && velocity.Valid() && pressure.Valid() && dye.Valid()
      && Disjoint(velocity.initial, pressure.initial, dye.initial, curl, divergence)
    }

    /** No two targets share a texture in their current roles either. */
    lemma RolesDisjoint()
      requires FieldsValid()
      ensures Disjoint(velocity.Pair(), pressure.Pair(), dye.Pair(), curl, divergence)
    {
      DisjointUnderSwaps(velocity.initial, pressure.initial, dye.initial, curl, divergence,
                         velocity.swaps, pressure.swaps, dye.swaps);
    }

    ghost predicate Valid()
      reads this, velocity, pressure, dye, display
    {
      Base() && FieldsValid() && Sized()
    }

    /** The snapshots of the pointers. */
    function PointerStates(): seq<PointerState>
      reads pointers
    {
      StatesOf(pointers)
    }

    /** The splat's radius uniform and the canvas aspect ratio. */
    function SplatRadius(): real
    {
      config.splatRadius / 100.0
    }

    function AspectRatio(): real
      reads this
      requires canvasHeight >= 1
    {
      (canvasWidth as real) / (canvasHeight as real)
    }

    /** useFluidCursor's set-up: compile the vertex shader, make the display
        material and the pointer, size the canvas and allocate the targets. */
    constructor (device: Device, config: Config, vertexShaderSource: string, displayShaderSource: string,
                 clientWidth: real, clientHeight: real, devicePixelRatio: real, now: int)
      requires config.simResolution >= 0.5 && config.dyeResolution >= 0.5
      requires ScaleByPixelRatio(clientWidth, devicePixelRatio) >= 1
      requires ScaleByPixelRatio(clientHeight, devicePixelRatio) >= 1
      modifies device
      ensures Valid()
      ensures this.device == device && this.config == config
      ensures canvasWidth == ScaleByPixelRatio(clientWidth, devicePixelRatio)
      ensures canvasHeight == ScaleByPixelRatio(clientHeight, devicePixelRatio)
      ensures lastUpdateTime == now
      ensures |pointers| == 1 && PointerStates() == [InitialPointer]
      ensures display.programs == map[] && display.activeProgram == None
      ensures display.vertexShader == old(device.next)
      ensures display.fragmentShaderSource == displayShaderSource
      ensures velocity.swaps == 0 && pressure.swaps == 0 && dye.swaps == 0
      ensures fresh(dye) && fresh(velocity) && fresh(pressure) && fresh(display)
      ensures dye.Pair() == dye.initial && velocity.Pair() == velocity.initial && pressure.Pair() == pressure.initial
      ensures device.next == old(device.next) + 17
      ensures device.log == old(device.log) + [Call.CompileShader(old(device.next), vertexShaderSource)]
                            + AllocationCalls(dye.Pair()) + AllocationCalls(velocity.Pair())
                            + FboCalls(divergence) + FboCalls(curl) + AllocationCalls(pressure.Pair())
    {
      var vertexShader := device.CompileShader(vertexShaderSource);
      this.device := device;
      this.config := config;
      display := new Material(device, vertexShader, displayShaderSource);
      var pointer := new Pointer();
      pointers := [pointer];
      lastUpdateTime := now;
      var w := ScaleByPixelRatio(clientWidth, devicePixelRatio);
      var h := ScaleByPixelRatio(clientHeight, devicePixelRatio);
      canvasWidth, canvasHeight := w, h;
      var d, v, div, c, p := AllocateFields(device, config, w, h);
      dye, velocity, divergence, curl, pressure := d, v, div, c, p;
      new;
      assert pointers[..0] == [];
    }

    /** resizeCanvas: take the client size in device pixels as the canvas
        size; report whether it changed. */
    method ResizeCanvas(clientWidth: real, clientHeight: real, devicePixelRatio: real) returns (resized: bool)
      requires Base()
      requires ScaleByPixelRatio(clientWidth, devicePixelRatio) >= 1
      requires ScaleByPixelRatio(clientHeight, devicePixelRatio) >= 1
      modifies this
      ensures Base()
      ensures canvasWidth == ScaleByPixelRatio(clientWidth, devicePixelRatio)
      ensures canvasHeight == ScaleByPixelRatio(clientHeight, devicePixelRatio)
      ensures resized <==> canvasWidth != old(canvasWidth) || canvasHeight != old(canvasHeight)
      ensures dye == old(dye) && velocity == old(velocity) && pressure == old(pressure)
      ensures divergence == old(divergence) && curl == old(curl)
      ensures lastUpdateTime == old(lastUpdateTime)
    {
      var w := ScaleByPixelRatio(clientWidth, devicePixelRatio);
      var h := ScaleByPixelRatio(clientHeight, devicePixelRatio);
      resized := false;
      if canvasWidth != w || canvasHeight != h {
        canvasWidth := w;
        canvasHeight := h;
        resized := true;
      }
    }

    /** initFramebuffers: allocate all five targets afresh for the current canvas. */
    method InitFramebuffers()
      requires Base()
      modifies this, device
      ensures Valid()
      ensures fresh(dye) && fresh(velocity) && fresh(pressure)
      ensures dye.swaps == 0 && velocity.swaps == 0 && pressure.swaps == 0
      ensures dye.Pair() == dye.initial && velocity.Pair() == velocity.initial && pressure.Pair() == pressure.initial
      ensures canvasWidth == old(canvasWidth) && canvasHeight == old(canvasHeight)
      ensures lastUpdateTime == old(lastUpdateTime)
      ensures device.next == old(device.next) + 16
      ensures device.log == old(device.log) + AllocationCalls(dye.Pair()) + AllocationCalls(velocity.Pair())
                            + FboCalls(divergence) + FboCalls(curl) + AllocationCalls(pressure.Pair())
    {
      var d, v, div, c, p := AllocateFields(device, config, canvasWidth, canvasHeight);
      dye, velocity, divergence, curl, pressure := d, v, div, c, p;
    }

    /** splat: draw one impulse into the velocity and its colour into the dye. */
    method Splat(x: real, y: real, dx: real, dy: real, color: Color)
      requires Valid()
      modifies device, velocity, dye
      ensures Valid()
      ensures device.next == old(device.next)
      ensures device.log == old(device.log) +
        SplatPair(SplatArgs(x, y, dx, dy, color), old(velocity.Pair()), old(dye.Pair()), SplatRadius(), AspectRatio())
      ensures velocity.Pair() == old(velocity.Pair()).Swapped() && velocity.swaps == old(velocity.swaps) + 1
      ensures dye.Pair() == old(dye.Pair()).Swapped() && dye.swaps == old(dye.swaps) + 1
    {
      ghost var v0, p0, d0 := velocity.Pair(), pressure.Pair(), dye.Pair();
      var radius, aspectRatio := SplatRadius(), AspectRatio();
      device.Blit(Kernel.Splat(x, y, Vec3(dx, dy, 0.0), radius, aspectRatio), [velocity.read], Offscreen(velocity.write));
      velocity.Swap();
      device.Blit(Kernel.Splat(x, y, Vec3(color.r, color.g, color.b), radius, aspectRatio), [dye.read], Offscreen(dye.write));
      dye.Swap();
    }

    /** The pointer loop of update: each moved pointer is marked not moved
        and splatted, with its delta scaled by the splat force. */
    method SplatMovedPointers()
      requires Valid()
      modifies device, velocity, dye, pointers
      ensures Valid()
      ensures PointerStates() == ConsumedAll(old(PointerStates()))
      ensures device.log == old(device.log) +
        SplatDraws(MovedSplats(old(PointerStates()), config.splatForce), old(velocity.Pair()), old(dye.Pair()),
                   SplatRadius(), AspectRatio())
      ensures var n := |MovedSplats(old(PointerStates()), config.splatForce)|;
        velocity.Pair() == SwapN(old(velocity.Pair()), n) && dye.Pair() == SwapN(old(dye.Pair()), n)
      ensures |device.log| >= |old(device.log)| && device.log[..|old(device.log)|] == old(device.log)
      ensures NoFeedback(device.log[|old(device.log)|..]) && NoDt(device.log[|old(device.log)|..])
    {
      ghost var states := PointerStates();
      ghost var v0, d0 := velocity.Pair(), dye.Pair();
      ghost var radius, aspectRatio := SplatRadius(), AspectRatio();
      var i := 0;
      assert states[..0] == [];
      while i < |pointers|
        invariant 0 <= i <= |pointers|
        invariant PointerLoop(i, states, v0, d0, radius, aspectRatio, old(device.log))
      {
        SplatPointer(i, states, v0, d0, radius, aspectRatio, old(device.log));
        i := i + 1;
      }
      assert states[..i] == states;
      assert PointerStates() == ConsumedAll(states);
      ghost var splats := MovedSplats(states, config.splatForce);
      SplatDrawsHarmless(splats, v0, d0, radius, aspectRatio);
      assert device.log[|old(device.log)|..] == SplatDraws(splats, v0, d0, radius, aspectRatio);
    }

    /** What holds after the pointer loop has looked at the first `i` pointers. */
    ghost predicate PointerLoop(i: nat, states: seq<PointerState>, velocity0: FboPair, dye0: FboPair,
                                radius: real, aspectRatio: real, log0: seq<Call>)
      reads this, velocity, pressure, dye, display, device, pointers
    {
      && i <= |pointers| == |states|
      && Valid()
      && radius == SplatRadius() && aspectRatio == AspectRatio()
      && (forall k :: 0 <= k < i ==> pointers[k].State() == Consumed(states[k]))
      && (forall k :: i <= k < |pointers| ==> pointers[k].State() == states[k])
      && var n := |MovedSplats(states[..i], config.splatForce)|;
      && velocity.Pair() == SwapN(velocity0, n) && dye.Pair() == SwapN(dye0, n)
      && device.log == log0 + SplatDraws(MovedSplats(states[..i], config.splatForce), velocity0, dye0, radius, aspectRatio)
    }

    /** One turn of the pointer loop, on pointer `i`. */
    method SplatPointer(i: nat, ghost states: seq<PointerState>, ghost velocity0: FboPair, ghost dye0: FboPair,
                        ghost radius: real, ghost aspectRatio: real, ghost log0: seq<Call>)
      requires i < |pointers|
      requires PointerLoop(i, states, velocity0, dye0, radius, aspectRatio, log0)
      modifies device, velocity, dye, pointers[i]
      ensures PointerLoop(i + 1, states, velocity0, dye0, radius, aspectRatio, log0)
    {
      assert pointers[i].State() == states[i];
      assert forall k :: 0 <= k < |pointers| && k != i ==> pointers[k] != pointers[i];
      ghost var before := device.log;
      SplatIfMoved(pointers[i]);
      PointerLoopStep(states, i, config.splatForce, velocity0, dye0, radius, aspectRatio, log0, before, device.log);
      forall k | 0 <= k < |pointers| && k != i
        ensures pointers[k].State() == old(pointers[k].State())
      {
        assert pointers[k] != pointers[i];
      }
    }

    /** One turn of the pointer loop. */
    method SplatIfMoved(p: Pointer)
      requires Valid() && p in pointers
      modifies device, velocity, dye, p
      ensures Valid()
      ensures p.State() == Consumed(old(p.State()))
      ensures device.next == old(device.next)
      ensures device.log == old(device.log) +
        (if old(p.moved) then SplatPair(SplatOf(old(p.State()), config.splatForce), old(velocity.Pair()),
                                        old(dye.Pair()), SplatRadius(), AspectRatio())
         else [])
      ensures var n := if old(p.moved) then 1 else 0;
        && velocity.Pair() == SwapN(old(velocity.Pair()), n) && dye.Pair() == SwapN(old(dye.Pair()), n)
        && velocity.swaps == old(velocity.swaps) + n && dye.swaps == old(dye.swaps) + n
    {
      if p.moved {
        p.moved := false;
        var s := SplatArgs(p.texcoordX, p.texcoordY, p.deltaX * config.splatForce, p.deltaY * config.splatForce, p.color);
        assert s == SplatOf(old(p.State()), config.splatForce);
        Splat(s.x, s.y, s.dx, s.dy, s.color);
      }
    }

    /** step: the passes of one frame, each drawn into the target its field's
        `write` names, followed by a swap of that field. */
    method Step(dt: real)
      requires Valid()
      modifies device, velocity, pressure, dye
      ensures Valid()
      ensures device.next == old(device.next)
      ensures device.log == old(device.log) +
        StepDraws(old(velocity.Pair()), old(pressure.Pair()), old(dye.Pair()), curl, divergence, config, dt)
      ensures velocity.Pair() == SwapN(old(velocity.Pair()), 3) && velocity.swaps == old(velocity.swaps) + 3
      ensures pressure.Pair() == SwapN(old(pressure.Pair()), 1 + config.pressureIterations)
      ensures pressure.swaps == old(pressure.swaps) + 1 + config.pressureIterations
      ensures dye.Pair() == SwapN(old(dye.Pair()), 1) && dye.swaps == old(dye.swaps) + 1
      ensures |device.log| >= |old(device.log)| && device.log[..|old(device.log)|] == old(device.log)
      ensures NoFeedback(device.log[|old(device.log)|..]) && DtAtMost(device.log[|old(device.log)|..], dt)
    {
      ghost var v0, p0, d0 := velocity.Pair(), pressure.Pair(), dye.Pair();
      RolesDisjoint();
      StepHasNoFeedback(v0, p0, d0, curl, divergence, config, dt);
      StepDtAtMost(v0, p0, d0, curl, divergence, config, dt, dt);
      var n := config.pressureIterations;
      HeadPasses(dt);
      PressurePasses();
      TailPasses(dt);
      SwapNShift(p0, n);
      SwapNParity(v0, 3);
      SwapNParity(d0, 1);
      assert device.log[|old(device.log)|..] == StepDraws(v0, p0, d0, curl, divergence, config, dt);
    }

    /** Curl, vorticity, divergence and the pressure decay. */
    method HeadPasses(dt: real)
      requires Valid()
      modifies device, velocity, pressure
      ensures Valid()
      ensures device.next == old(device.next)
      ensures device.log == old(device.log) +
        StepHead(old(velocity.Pair()), old(pressure.Pair()), curl, divergence, config, dt)
      ensures velocity.Pair() == old(velocity.Pair()).Swapped() && velocity.swaps == old(velocity.swaps) + 1
      ensures pressure.Pair() == old(pressure.Pair()).Swapped() && pressure.swaps == old(pressure.swaps) + 1
    {
      device.Blit(Curl, [velocity.read], Offscreen(curl));
      device.Blit(Vorticity(config.curl, dt), [velocity.read, curl], Offscreen(velocity.write));
      velocity.Swap();
      device.Blit(Divergence, [velocity.read], Offscreen(divergence));
      device.Blit(Clear(config.pressure), [pressure.read], Offscreen(pressure.write));
      pressure.Swap();
    }

    /** The PRESSURE_ITERATIONS Jacobi passes. */
    method PressurePasses()
      requires Valid()
      modifies device, pressure
      ensures Valid()
      ensures device.next == old(device.next)
      ensures device.log == old(device.log) + PressureDraws(divergence, old(pressure.Pair()), config.pressureIterations)
      ensures pressure.Pair() == SwapN(old(pressure.Pair()), config.pressureIterations)
      ensures pressure.swaps == old(pressure.swaps) + config.pressureIterations
    {
      ghost var p0 := pressure.Pair();
      var i := 0;
      while i < config.pressureIterations
        invariant 0 <= i <= config.pressureIterations
        invariant pressure.Valid() && pressure.Pair() == SwapN(p0, i)
        invariant pressure.swaps == old(pressure.swaps) + i
        invariant device.next == old(device.next)
        invariant device.log == old(device.log) + PressureDraws(divergence, p0, i)
        modifies device, pressure
      {
        device.Blit(Pressure, [divergence, pressure.read], Offscreen(pressure.write));
        pressure.Swap();
        i := i + 1;
      }
    }

    /** Gradient subtraction, velocity advection and dye advection. */
    method TailPasses(dt: real)
      requires Valid()
      modifies device, velocity, dye
      ensures Valid()
      ensures device.next == old(device.next)
      ensures device.log == old(device.log) +
        StepTail(old(velocity.Pair()), old(pressure.Pair()), old(dye.Pair()), config, dt)
      ensures velocity.Pair() == old(velocity.Pair()).Swapped().Swapped() && velocity.swaps == old(velocity.swaps) + 2
      ensures dye.Pair() == old(dye.Pair()).Swapped() && dye.swaps == old(dye.swaps) + 1
    {
      device.Blit(GradientSubtract, [pressure.read, velocity.read], Offscreen(velocity.write));
      velocity.Swap();
      device.Blit(Advection(dt, config.velocityDissipation), [velocity.read], Offscreen(velocity.write));
      velocity.Swap();
      device.Blit(Advection(dt, config.densityDissipation), [velocity.read, dye.read], Offscreen(dye.write));
      dye.Swap();
    }

    /** render(null): select the display variant and draw the dye to the screen. */
    method Render() returns (ghost calls: seq<Call>)
      requires Valid()
      modifies display, device
      ensures Valid()
      ensures var key := KeywordsKey(DisplayKeywords(config.shading));
        key in display.programs && display.activeProgram == Some(display.programs[key])
      ensures device.log == old(device.log) + calls
      ensures DisplayPass(calls, config.shading, dye.read)
    {
      ghost var log0 := device.log;
      display.SetKeywords(DisplayKeywords(config.shading));
      ghost var setup := device.log[|log0|..];
      assert device.log == log0 + setup;
      device.Blit(Display(config.shading), [dye.read], Screen);
      calls := setup + [Call.Draw(Display(config.shading), [dye.read], Screen)];
      assert calls[..|calls| - 1] == setup;
    }

    /** update: take the time step from the clock, resize (and then
        reallocate the targets) if the canvas size changed, splat the moved
        pointers, advance the simulation and draw it.  The ghost results
        name the parts of the frame's calls: the allocations, the roles the
        fields had when the splats began, and the display pass. */
    method Update(now: int, clientWidth: real, clientHeight: real, devicePixelRatio: real)
      returns (ghost allocation: seq<Call>, ghost velocity0: FboPair, ghost pressure0: FboPair,
               ghost dye0: FboPair, ghost splats: seq<SplatArgs>, ghost displayCalls: seq<Call>)
      requires Valid()
      requires ScaleByPixelRatio(clientWidth, devicePixelRatio) >= 1
      requires ScaleByPixelRatio(clientHeight, devicePixelRatio) >= 1
      modifies this, device, velocity, pressure, dye, display, pointers
      ensures Valid()
      ensures lastUpdateTime == now
      ensures canvasWidth == ScaleByPixelRatio(clientWidth, devicePixelRatio)
      ensures canvasHeight == ScaleByPixelRatio(clientHeight, devicePixelRatio)
      ensures PointerStates() == ConsumedAll(old(PointerStates()))
      ensures var resized := canvasWidth != old(canvasWidth) || canvasHeight != old(canvasHeight);
        && (!resized ==>
              && dye == old(dye) && velocity == old(velocity) && pressure == old(pressure)
              && divergence == old(divergence) && curl == old(curl) && allocation == []
              && velocity0 == old(velocity.Pair()) && pressure0 == old(pressure.Pair()) && dye0 == old(dye.Pair()))
        && (resized ==>
              && fresh(dye) && fresh(velocity) && fresh(pressure)
              && velocity0 == velocity.initial && pressure0 == pressure.initial && dye0 == dye.initial
              && allocation == AllocationCalls(dye0) + AllocationCalls(velocity0) + FboCalls(divergence)
                               + FboCalls(curl) + AllocationCalls(pressure0))
      ensures splats == MovedSplats(old(PointerStates()), config.splatForce)
      ensures var n := |splats|;
        && device.log == old(device.log) + allocation
             + SplatDraws(splats, velocity0, dye0, SplatRadius(), AspectRatio())
             + StepDraws(SwapN(velocity0, n), pressure0, SwapN(dye0, n), curl, divergence, config,
                         ClampDt(now - old(lastUpdateTime)))
             + displayCalls
        && velocity.Pair() == SwapN(velocity0, n + 3)
        && pressure.Pair() == SwapN(pressure0, 1 + config.pressureIterations)
        && dye.Pair() == SwapN(dye0, n + 1)
      ensures DisplayPass(displayCalls, config.shading, dye.read)
      ensures |device.log| > |old(device.log)| && device.log[..|old(device.log)|] == old(device.log)
      ensures NoFeedback(device.log[|old(device.log)|..])
      ensures DtAtMost(device.log[|old(device.log)|..], ClampDt(now - old(lastUpdateTime)))
      ensures device.log[|device.log| - 1] == Call.Draw(Display(config.shading), [dye.read], Screen)
    {
      ghost var log0 := device.log;
      var dt, resized := PrepareFrame(now, clientWidth, clientHeight, devicePixelRatio);
      ghost var log1 := device.log;
      allocation := log1[|log0|..];
      assert log1 == log0 + allocation;
      velocity0, pressure0, dye0 := velocity.Pair(), pressure.Pair(), dye.Pair();
      assert resized ==> allocation == AllocationCalls(dye0) + AllocationCalls(velocity0) + FboCalls(divergence)
                                       + FboCalls(curl) + AllocationCalls(pressure0);
      RolesDisjoint();
      splats, displayCalls := DrawFrame(dt);
      assert dye.Pair() == SwapN(dye0, |splats| + 1);
      assert velocity.Pair() == SwapN(velocity0, |splats| + 3);
      FrameHarmless(log0, allocation, splats, velocity0, pressure0, dye0, curl, divergence, config, dt,
                    SplatRadius(), AspectRatio(), displayCalls, dye.read, device.log);
    }

    /** The first half of update: the clamped time step, the new time stamp,
        and the canvas resize with, exactly if the size changed, new targets. */
    method PrepareFrame(now: int, clientWidth: real, clientHeight: real, devicePixelRatio: real)
      returns (dt: real, resized: bool)
      requires Valid()
      requires ScaleByPixelRatio(clientWidth, devicePixelRatio) >= 1
      requires ScaleByPixelRatio(clientHeight, devicePixelRatio) >= 1
      modifies this, device
      ensures Valid()
      ensures dt == ClampDt(now - old(lastUpdateTime)) && lastUpdateTime == now
      ensures PointerStates() == old(PointerStates())
      ensures canvasWidth == ScaleByPixelRatio(clientWidth, devicePixelRatio)
      ensures canvasHeight == ScaleByPixelRatio(clientHeight, devicePixelRatio)
      ensures resized <==> canvasWidth != old(canvasWidth) || canvasHeight != old(canvasHeight)
      ensures !resized ==>
        && dye == old(dye) && velocity == old(velocity) && pressure == old(pressure)
        && divergence == old(divergence) && curl == old(curl)
        && device.log == old(device.log)
      ensures resized ==>
        && fresh(dye) && fresh(velocity) && fresh(pressure)
        && dye.swaps == 0 && velocity.swaps == 0 && pressure.swaps == 0
        && dye.Pair() == dye.initial && velocity.Pair() == velocity.initial && pressure.Pair() == pressure.initial
        && device.log == old(device.log) + AllocationCalls(dye.initial) + AllocationCalls(velocity.initial)
                         + FboCalls(divergence) + FboCalls(curl) + AllocationCalls(pressure.initial)
      ensures |device.log| >= |old(device.log)| && device.log[..|old(device.log)|] == old(device.log)
      ensures NoDraws(device.log[|old(device.log)|..])
    {
      dt := ClampDt(now - lastUpdateTime);
      lastUpdateTime := now;
      resized := ResizeCanvas(clientWidth, clientHeight, devicePixelRatio);
      ghost var log0 := device.log;
      if resized {
        InitFramebuffers();
        ghost var added := AllocationCalls(dye.Pair()) + AllocationCalls(velocity.Pair())
                           + FboCalls(divergence) + FboCalls(curl) + AllocationCalls(pressure.Pair());
        AllocationHasNoDraws(dye.Pair(), velocity.Pair(), divergence, curl, pressure.Pair());
        assert device.log[|log0|..] == added;
      } else {
        assert device.log[|log0|..] == [];
      }
    }

    /** The second half of update: the pointer splats, one step and the
        display pass, in that order. */
    method DrawFrame(dt: real) returns (ghost splats: seq<SplatArgs>, ghost displayCalls: seq<Call>)
      requires Valid()
      modifies device, velocity, pressure, dye, display, pointers
      ensures Valid()
      ensures PointerStates() == ConsumedAll(old(PointerStates()))
      ensures splats == MovedSplats(old(PointerStates()), config.splatForce)
      ensures var n := |splats|;
        && device.log == old(device.log)
             + SplatDraws(splats, old(velocity.Pair()), old(dye.Pair()), SplatRadius(), AspectRatio())
             + StepDraws(SwapN(old(velocity.Pair()), n), old(pressure.Pair()), SwapN(old(dye.Pair()), n),
                         curl, divergence, config, dt)
             + displayCalls
        && velocity.Pair() == SwapN(old(velocity.Pair()), n + 3)
        && pressure.Pair() == SwapN(old(pressure.Pair()), 1 + config.pressureIterations)
        && dye.Pair() == SwapN(old(dye.Pair()), n + 1)
      ensures DisplayPass(displayCalls, config.shading, dye.read)
    {
      ghost var v0, d0 := velocity.Pair(), dye.Pair();
      splats := MovedSplats(PointerStates(), config.splatForce);
      ghost var n := |splats|;
      SplatMovedPointers();
      displayCalls := Advance(dt);
      SwapNAdd(v0, n, 3);
      SwapNAdd(d0, n, 1);
    }

    /** step(dt) followed by render(null). */
    method Advance(dt: real) returns (ghost displayCalls: seq<Call>)
      requires Valid()
      modifies device, velocity, pressure, dye, display
      ensures Valid()
      ensures PointerStates() == old(PointerStates())
      ensures device.log == old(device.log)
        + StepDraws(old(velocity.Pair()), old(pressure.Pair()), old(dye.Pair()), curl, divergence, config, dt)
        + displayCalls
      ensures velocity.Pair() == SwapN(old(velocity.Pair()), 3)
      ensures pressure.Pair() == SwapN(old(pressure.Pair()), 1 + config.pressureIterations)
      ensures dye.Pair() == SwapN(old(dye.Pair()), 1)
      ensures DisplayPass(displayCalls, config.shading, dye.read)
    {
      Step(dt);
      displayCalls := Render();
      assert unchanged(pointers);
    }

    /** The mousemove handler: a move before any press first starts a
        stroke at the pointer's position, so that first move is no movement. */
    method OnMouseMove(clientX: real, clientY: real, devicePixelRatio: real)
      requires Valid()
      modifies pointers[0]
      ensures Valid()
      ensures var x, y := ScaleByPixelRatio(clientX, devicePixelRatio), ScaleByPixelRatio(clientY, devicePixelRatio);
        var p := pointers[0];
        && (old(p.down) ==> p.State() == MoveState(old(p.State()), x, y, old(p.color), canvasWidth, canvasHeight))
        && (!old(p.down) ==>
              p.color in Palette && p.State() == DownState(-1, x, y, canvasWidth, canvasHeight, p.color))
    {
      var p := pointers[0];
      var x, y := ScaleByPixelRatio(clientX, devicePixelRatio), ScaleByPixelRatio(clientY, devicePixelRatio);
      if !p.down {
        p.UpdateDownData(-1, x, y, canvasWidth, canvasHeight);
        MoveToDownPointIsStill(-1, x, y, canvasWidth, canvasHeight, p.color);
      }
      p.UpdateMoveData(x, y, p.color, canvasWidth, canvasHeight);
    }

    /** The mousedown handler: start a stroke with id -1. */
    method OnMouseDown(clientX: real, clientY: real, devicePixelRatio: real)
      requires Valid()
      modifies pointers[0]
      ensures Valid()
      ensures var x, y := ScaleByPixelRatio(clientX, devicePixelRatio), ScaleByPixelRatio(clientY, devicePixelRatio);
        pointers[0].color in Palette &&
        pointers[0].State() == DownState(-1, x, y, canvasWidth, canvasHeight, pointers[0].color)
    {
      var x, y := ScaleByPixelRatio(clientX, devicePixelRatio), ScaleByPixelRatio(clientY, devicePixelRatio);
      pointers[0].UpdateDownData(-1, x, y, canvasWidth, canvasHeight);
    }

    /** The touchstart handler: start a stroke for the first target touch,
        with its identifier. */
    method OnTouchStart(identifier: int, clientX: real, clientY: real, devicePixelRatio: real)
      requires Valid()
      modifies pointers[0]
      ensures Valid()
      ensures var x, y := ScaleByPixelRatio(clientX, devicePixelRatio), ScaleByPixelRatio(clientY, devicePixelRatio);
        pointers[0].color in Palette &&
        pointers[0].State() == DownState(identifier, x, y, canvasWidth, canvasHeight, pointers[0].color)
    {
      var x, y := ScaleByPixelRatio(clientX, devicePixelRatio), ScaleByPixelRatio(clientY, devicePixelRatio);
      pointers[0].UpdateDownData(identifier, x, y, canvasWidth, canvasHeight);
    }

    /** The touchmove handler: move the pointer to the first target touch,
        keeping its colour. */
    method OnTouchMove(clientX: real, clientY: real, devicePixelRatio: real)
      requires Valid()
      modifies pointers[0]
      ensures Valid()
      ensures var x, y := ScaleByPixelRatio(clientX, devicePixelRatio), ScaleByPixelRatio(clientY, devicePixelRatio);
        pointers[0].State() == MoveState(old(pointers[0].State()), x, y, old(pointers[0].color), canvasWidth, canvasHeight)
    {
      var x, y := ScaleByPixelRatio(clientX, devicePixelRatio), ScaleByPixelRatio(clientY, devicePixelRatio);
      pointers[0].UpdateMoveData(x, y, pointers[0].color, canvasWidth, canvasHeight);
    }
  }

  /** The targets of initFramebuffers, in its order: dye, velocity,
      divergence, curl, pressure. */
  method AllocateFields(device: Device, config: Config, canvasWidth: int, canvasHeight: int)
    returns (dye: DoubleFbo, velocity: DoubleFbo, divergence: Fbo, curl: Fbo, pressure: DoubleFbo)
    requires canvasWidth >= 1 && canvasHeight >= 1
    requires config.simResolution >= 0.5 && config.dyeResolution >= 0.5
    modifies device
    ensures fresh(dye) && fresh(velocity) && fresh(pressure)
    ensures velocity != pressure && velocity != dye && pressure != dye
    ensures dye.Valid() && velocity.Valid() && pressure.Valid()
    ensures dye.swaps == 0 && velocity.swaps == 0 && pressure.swaps == 0
    ensures dye.Pair() == dye.initial && velocity.Pair() == velocity.initial && pressure.Pair() == pressure.initial
    ensures Disjoint(velocity.initial, pressure.initial, dye.initial, curl, divergence)
    ensures var sim := GetResolution(config.simResolution, canvasWidth, canvasHeight);
      var dyeRes := GetResolution(config.dyeResolution, canvasWidth, canvasHeight);
      && dye.width == dyeRes.width && dye.height == dyeRes.height
      && velocity.width == sim.width && velocity.height == sim.height
      && pressure.width == sim.width && pressure.height == sim.height
      && divergence.width == sim.width && divergence.height == sim.height
      && curl.width == sim.width && curl.height == sim.height
    ensures device.next == old(device.next) + 16
    ensures device.log == old(device.log) + AllocationCalls(dye.Pair()) + AllocationCalls(velocity.Pair())
                          + FboCalls(divergence) + FboCalls(curl) + AllocationCalls(pressure.Pair())
  {
    var sim := GetResolution(config.simResolution, canvasWidth, canvasHeight);
    var dyeRes := GetResolution(config.dyeResolution, canvasWidth, canvasHeight);
    ResolutionPositive(config.simResolution, canvasWidth, canvasHeight);
    ResolutionPositive(config.dyeResolution, canvasWidth, canvasHeight);
    ghost var n, log0 := device.next, device.log;
    dye := new DoubleFbo(device, dyeRes.width, dyeRes.height);
    ghost var d := dye.Pair();
    velocity := new DoubleFbo(device, sim.width, sim.height);
    ghost var v := velocity.Pair();
    divergence := CreateFbo(device, sim.width, sim.height);
    curl := CreateFbo(device, sim.width, sim.height);
    ghost var log1 := device.log;
    assert log1 == log0 + AllocationCalls(d) + AllocationCalls(v) + FboCalls(divergence) + FboCalls(curl);
    pressure := new DoubleFbo(device, sim.width, sim.height);
    assert dye.Pair() == d && velocity.Pair() == v;
    HandlesDisjoint(n, velocity.initial, pressure.initial, dye.initial, curl, divergence);
  }

  /** Targets allocated one after another from handle `n` on, dye first,
      share no texture. */
  lemma HandlesDisjoint(n: Handle, velocity: FboPair, pressure: FboPair, dye: FboPair, curl: Fbo, divergence: Fbo)
    requires dye.read.texture == n && dye.write.texture == n + 2
    requires velocity.read.texture == n + 4 && velocity.write.texture == n + 6
    requires divergence.texture == n + 8 && curl.texture == n + 10
    requires pressure.read.texture == n + 12 && pressure.write.texture == n + 14
    ensures Disjoint(velocity, pressure, dye, curl, divergence)
  {
  }
}
