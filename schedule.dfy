/** The draw calls one simulation step and the pointer splats issue, as
    functions of the fields' roles before them, and what they guarantee: no
    pass samples the texture it writes, each field is written once per swap,
    and after the step every field's `read` is the target written last. */
module Schedule {

  import opened Wrappers
  import opened Gpu
  import opened Fields
  import Input

  /** The simulation parameters the driver reads. */
  datatype Config = Config(
    simResolution: real,
    dyeResolution: real,
    densityDissipation: real,
    velocityDissipation: real,
    pressure: real,
    pressureIterations: nat,
    curl: real,
    splatRadius: real,
    splatForce: real,
    shading: bool)

  const DefaultConfig: Config := Config(128.0, 1440.0, 3.5, 2.0, 0.1, 20, 3.0, 0.1, 3000.0, true)

  /** The upper bound of a step's time in seconds. */
  const MaxDt: real := 0.016666

  /** The six textures of the three double-buffered fields and the two
      single ones are pairwise different. */
  predicate Disjoint(velocity: FboPair, pressure: FboPair, dye: FboPair, curl: Fbo, divergence: Fbo)
  {
    && velocity.read.texture != velocity.write.texture
    && pressure.read.texture != pressure.write.texture
    && dye.read.texture != dye.write.texture
    && velocity.Textures() !! pressure.Textures()
    && velocity.Textures() !! dye.Textures()
    && pressure.Textures() !! dye.Textures()
    && curl.texture != divergence.texture
    && curl.texture !in velocity.Textures() + pressure.Textures() + dye.Textures()
    && divergence.texture !in velocity.Textures() + pressure.Textures() + dye.Textures()
  }

  lemma DisjointUnderSwaps(velocity: FboPair, pressure: FboPair, dye: FboPair, curl: Fbo, divergence: Fbo,
                           i: nat, j: nat, k: nat)
    requires Disjoint(velocity, pressure, dye, curl, divergence)
    ensures Disjoint(SwapN(velocity, i), SwapN(pressure, j), SwapN(dye, k), curl, divergence)
  {
    SwapNTextures(velocity, i);
    SwapNTextures(pressure, j);
    SwapNTextures(dye, k);
    SwapNParity(velocity, i);
    SwapNParity(pressure, j);
    SwapNParity(dye, k);
  }

  /** The Jacobi passes: `n` times, read the pressure, write the other target, swap. */
  function PressureDraws(divergence: Fbo, pressure: FboPair, n: nat): seq<Call>
  {
    if n == 0 then []
    else
      var p := SwapN(pressure, n - 1);
      PressureDraws(divergence, pressure, n - 1) +
      [Call.Draw(Pressure, [divergence, p.read], Offscreen(p.write))]
  }

  /** One step: curl, vorticity (velocity swap), divergence, pressure decay
      (pressure swap), the Jacobi passes (a swap each), gradient subtraction
      (velocity swap), velocity advection (velocity swap) and dye advection
      (dye swap). */
  function StepDraws(velocity: FboPair, pressure: FboPair, dye: FboPair, curl: Fbo, divergence: Fbo,
                     config: Config, dt: real): seq<Call>
  {
    StepHead(velocity, pressure, curl, divergence, config, dt)
    + PressureDraws(divergence, pressure.Swapped(), config.pressureIterations)
    + StepTail(velocity.Swapped(), SwapN(pressure.Swapped(), config.pressureIterations), dye, config, dt)
  }

  /** The four passes before the Jacobi passes. */
  function StepHead(velocity: FboPair, pressure: FboPair, curl: Fbo, divergence: Fbo,
                    config: Config, dt: real): seq<Call>
  {
    var v1 := velocity.Swapped();
    [Call.Draw(Curl, [velocity.read], Offscreen(curl)),
     Call.Draw(Vorticity(config.curl, dt), [velocity.read, curl], Offscreen(velocity.write)),
     Call.Draw(Divergence, [v1.read], Offscreen(divergence)),
     Call.Draw(Clear(config.pressure), [pressure.read], Offscreen(pressure.write))]
  }

  /** The three passes after the Jacobi passes, given the velocity and the
      pressure as they are then. */
  function StepTail(velocity: FboPair, pressure: FboPair, dye: FboPair, config: Config, dt: real): seq<Call>
  {
    var v1 := velocity.Swapped();
    var v2 := v1.Swapped();
    [Call.Draw(GradientSubtract, [pressure.read, velocity.read], Offscreen(velocity.write)),
     Call.Draw(Advection(dt, config.velocityDissipation), [v1.read], Offscreen(v1.write)),
     Call.Draw(Advection(dt, config.densityDissipation), [v2.read, dye.read], Offscreen(dye.write))]
  }

  /** What one splat is made of: the point, the velocity impulse and the colour. */
  datatype SplatArgs = SplatArgs(x: real, y: real, dx: real, dy: real, color: Input.Color)

  /** splat: add the impulse to the velocity (swap), then the colour to the dye (swap). */
  function SplatPair(s: SplatArgs, velocity: FboPair, dye: FboPair, radius: real, aspectRatio: real): seq<Call>
  {
    [Call.Draw(Splat(s.x, s.y, Vec3(s.dx, s.dy, 0.0), radius, aspectRatio), [velocity.read], Offscreen(velocity.write)),
     Call.Draw(Splat(s.x, s.y, Vec3(s.color.r, s.color.g, s.color.b), radius, aspectRatio), [dye.read], Offscreen(dye.write))]
  }

  /** The splats of `splats`, in order. */
  function SplatDraws(splats: seq<SplatArgs>, velocity: FboPair, dye: FboPair, radius: real, aspectRatio: real): seq<Call>
  {
    if splats == [] then []
    else
      var n := |splats| - 1;
      SplatDraws(splats[..n], velocity, dye, radius, aspectRatio) +
      SplatPair(splats[n], SwapN(velocity, n), SwapN(dye, n), radius, aspectRatio)
  }

  /** A display pass: calls that draw nothing (selecting and binding the
      program), then one draw of `dye` to the screen. */
  predicate DisplayPass(calls: seq<Call>, shading: bool, dye: Fbo)
  {
    && |calls| >= 1
    && NoDraws(calls[..|calls| - 1])
    && calls[|calls| - 1] == Call.Draw(Display(shading), [dye], Screen)
  }

  // ---- Properties of call sequences ----

  predicate NoFeedback(calls: seq<Call>)
  {
    forall k :: 0 <= k < |calls| ==> !IsFeedback(calls[k])
  }

  /** A draw whose kernel is advanced by a time step. */
  predicate UsesDt(c: Call)
  {
    c.Draw? && (c.kernel.Vorticity? || c.kernel.Advection?)
  }

  predicate DtAtMost(calls: seq<Call>, bound: real)
  {
    forall k :: 0 <= k < |calls| ==> UsesDt(calls[k]) ==> calls[k].kernel.dt <= bound
  }

  /** No call of `calls` is advanced by a time step. */
  predicate NoDt(calls: seq<Call>)
  {
    forall k :: 0 <= k < |calls| ==> !UsesDt(calls[k])
  }

  predicate IsDrawInto(c: Call, textures: set<Handle>)
  {
    c.Draw? && c.target.Offscreen? && c.target.fbo.texture in textures
  }

  /** The target written by `c` if it writes one of `textures`. */
  function WriteOf(c: Call, textures: set<Handle>): seq<Fbo>
  {
    if IsDrawInto(c, textures) then [c.target.fbo] else []
  }

  /** The targets among `textures` that `calls` write, in order. */
  function Writes(calls: seq<Call>, textures: set<Handle>): seq<Fbo>
  {
    if calls == [] then [] else WriteOf(calls[0], textures) + Writes(calls[1..], textures)
  }

  lemma NoFeedbackAppend(a: seq<Call>, b: seq<Call>)
    ensures NoFeedback(a + b) <==> NoFeedback(a) && NoFeedback(b)
  {
    if NoFeedback(a) && NoFeedback(b) {
      forall k | 0 <= k < |a + b| ensures !IsFeedback((a + b)[k]) {
        if k >= |a| { assert (a + b)[k] == b[k - |a|]; }
      }
    }
    if NoFeedback(a + b) {
      forall k | 0 <= k < |a| ensures !IsFeedback(a[k]) {
        assert (a + b)[k] == a[k];
      }
      forall k | 0 <= k < |b| ensures !IsFeedback(b[k]) {
        assert (a + b)[|a| + k] == b[k];
      }
    }
  }

  lemma DtAtMostAppend(a: seq<Call>, b: seq<Call>, bound: real)
    ensures DtAtMost(a + b, bound) <==> DtAtMost(a, bound) && DtAtMost(b, bound)
  {
    if DtAtMost(a, bound) && DtAtMost(b, bound) {
      forall k | 0 <= k < |a + b| && UsesDt((a + b)[k]) ensures (a + b)[k].kernel.dt <= bound {
        if k >= |a| { assert (a + b)[k] == b[k - |a|]; }
      }
    }
    if DtAtMost(a + b, bound) {
      forall k | 0 <= k < |a| && UsesDt(a[k]) ensures a[k].kernel.dt <= bound {
        assert (a + b)[k] == a[k];
      }
      forall k | 0 <= k < |b| && UsesDt(b[k]) ensures b[k].kernel.dt <= bound {
        assert (a + b)[|a| + k] == b[k];
      }
    }
  }

  lemma NoDtAppend(a: seq<Call>, b: seq<Call>)
    requires NoDt(a) && NoDt(b)
    ensures NoDt(a + b)
  {
    forall k | 0 <= k < |a + b| ensures !UsesDt((a + b)[k]) {
      if k >= |a| { assert (a + b)[k] == b[k - |a|]; }
    }
  }

  /** A display pass draws only to the screen and carries no time step. */
  lemma DisplayPassHarmless(calls: seq<Call>, shading: bool, dye: Fbo)
    requires DisplayPass(calls, shading, dye)
    ensures NoFeedback(calls) && NoDt(calls)
  {
    var k := |calls| - 1;
    assert calls == calls[..k] + [calls[k]];
    NoDrawsIsHarmless(calls[..k], 0.0);
    NoFeedbackAppend(calls[..k], [calls[k]]);
    NoDtAppend(calls[..k], [calls[k]]);
  }

  /** Calls without a time step meet every bound on it. */
  lemma NoDtIsDtAtMost(calls: seq<Call>, bound: real)
    requires NoDt(calls)
    ensures DtAtMost(calls, bound)
  {
  }

  /** Calls that draw nothing cannot feed back or carry a time step. */
  lemma NoDrawsIsHarmless(calls: seq<Call>, bound: real)
    requires NoDraws(calls)
    ensures NoFeedback(calls) && DtAtMost(calls, bound) && NoDt(calls)
  {
  }

  lemma {:induction false} WritesAppend(a: seq<Call>, b: seq<Call>, textures: set<Handle>)
    ensures Writes(a + b, textures) == Writes(a, textures) + Writes(b, textures)
  {
    if a == [] {
      assert a + b == b;
    } else {
      assert (a + b)[0] == a[0];
      assert (a + b)[1..] == a[1..] + b;
      WritesAppend(a[1..], b, textures);
    }
  }

  lemma WritesCons(c: Call, rest: seq<Call>, textures: set<Handle>)
    ensures Writes([c] + rest, textures) == WriteOf(c, textures) + Writes(rest, textures)
  {
    assert ([c] + rest)[0] == c;
    assert ([c] + rest)[1..] == rest;
  }

  // ---- The pressure passes ----

  /** The k-th Jacobi pass reads the pressure after k swaps and writes its other target. */
  lemma {:induction false} PressureDrawsAt(divergence: Fbo, pressure: FboPair, n: nat)
    ensures |PressureDraws(divergence, pressure, n)| == n
    ensures forall k :: 0 <= k < n ==>
      PressureDraws(divergence, pressure, n)[k] ==
      Call.Draw(Pressure, [divergence, SwapN(pressure, k).read], Offscreen(SwapN(pressure, k).write))
  {
    if n > 0 {
      PressureDrawsAt(divergence, pressure, n - 1);
    }
  }

  /** No Jacobi pass samples the pressure target it writes. */
  lemma PressureDrawsNoFeedback(divergence: Fbo, pressure: FboPair, n: nat)
    requires pressure.read.texture != pressure.write.texture
    requires divergence.texture !in pressure.Textures()
    ensures NoFeedback(PressureDraws(divergence, pressure, n))
  {
    PressureDrawsAt(divergence, pressure, n);
    forall k | 0 <= k < n ensures !IsFeedback(PressureDraws(divergence, pressure, n)[k]) {
      SwapNParity(pressure, k);
    }
  }

  /** The Jacobi passes carry no time step. */
  lemma {:induction false} PressureDrawsNoDt(divergence: Fbo, pressure: FboPair, n: nat)
    ensures NoDt(PressureDraws(divergence, pressure, n))
  {
    if n > 0 {
      PressureDrawsNoDt(divergence, pressure, n - 1);
      var p := SwapN(pressure, n - 1);
      NoDtAppend(PressureDraws(divergence, pressure, n - 1),
                 [Call.Draw(Pressure, [divergence, p.read], Offscreen(p.write))]);
    }
  }

  /** The targets the Jacobi passes write: the `write` target after 0, 1, ... swaps. */
  function PressureTargets(pressure: FboPair, n: nat): seq<Fbo>
  {
    if n == 0 then [] else PressureTargets(pressure, n - 1) + [SwapN(pressure, n - 1).write]
  }

  lemma {:induction false} PressureWrites(divergence: Fbo, pressure: FboPair, n: nat, textures: set<Handle>)
    ensures pressure.Textures() <= textures ==>
      Writes(PressureDraws(divergence, pressure, n), textures) == PressureTargets(pressure, n)
    ensures pressure.Textures() !! textures ==>
      Writes(PressureDraws(divergence, pressure, n), textures) == []
  {
    if n > 0 {
      PressureWrites(divergence, pressure, n - 1, textures);
      var p := SwapN(pressure, n - 1);
      SwapNTextures(pressure, n - 1);
      var last := Call.Draw(Pressure, [divergence, p.read], Offscreen(p.write));
      WritesAppend(PressureDraws(divergence, pressure, n - 1), [last], textures);
      WritesCons(last, [], textures);
    }
  }

  /** After n > 0 passes the last target written is the `read` target after n swaps. */
  lemma PressureLastTarget(pressure: FboPair, n: nat)
    requires n > 0
    ensures |PressureTargets(pressure, n)| == n
    ensures PressureTargets(pressure, n)[n - 1] == SwapN(pressure, n).read
  {
    PressureTargetsLength(pressure, n);
  }

  lemma {:induction false} PressureTargetsLength(pressure: FboPair, n: nat)
    ensures |PressureTargets(pressure, n)| == n
  {
    if n > 0 {
      PressureTargetsLength(pressure, n - 1);
    }
  }

  // ---- The step ----

  /** No pass of the step samples the texture it writes. */
  lemma StepHasNoFeedback(velocity: FboPair, pressure: FboPair, dye: FboPair, curl: Fbo, divergence: Fbo,
                          config: Config, dt: real)
    requires Disjoint(velocity, pressure, dye, curl, divergence)
    ensures NoFeedback(StepDraws(velocity, pressure, dye, curl, divergence, config, dt))
  {
    var n := config.pressureIterations;
    var p1 := pressure.Swapped();
    DisjointUnderSwaps(velocity, pressure, dye, curl, divergence, 1, 1 + n, 0);
    assert SwapN(pressure, 1 + n) == SwapN(p1, n) by { SwapNParity(pressure, 1 + n); SwapNParity(p1, n); }
    SwapNTextures(p1, n);
    PressureDrawsNoFeedback(divergence, p1, n);
    var head, pd, tail := StepHead(velocity, pressure, curl, divergence, config, dt),
      PressureDraws(divergence, p1, n), StepTail(velocity.Swapped(), SwapN(pressure.Swapped(), config.pressureIterations), dye, config, dt);
    assert NoFeedback(head);
    assert NoFeedback(tail);
    NoFeedbackAppend(head, pd);
    NoFeedbackAppend(head + pd, tail);
  }

  /** Every time step a step's kernels receive (vorticity and the two
      advections) is the step's own `dt`. */
  lemma StepDtIs(velocity: FboPair, pressure: FboPair, dye: FboPair, curl: Fbo, divergence: Fbo,
                 config: Config, dt: real)
    ensures var draws := StepDraws(velocity, pressure, dye, curl, divergence, config, dt);
      forall k :: 0 <= k < |draws| && UsesDt(draws[k]) ==> draws[k].kernel.dt == dt
  {
    PressureDrawsNoDt(divergence, pressure.Swapped(), config.pressureIterations);
  }

  /** A step advanced by `dt` gives no kernel a time step above any bound of `dt`. */
  lemma StepDtAtMost(velocity: FboPair, pressure: FboPair, dye: FboPair, curl: Fbo, divergence: Fbo,
                     config: Config, dt: real, bound: real)
    requires dt <= bound
    ensures DtAtMost(StepDraws(velocity, pressure, dye, curl, divergence, config, dt), bound)
  {
    var n := config.pressureIterations;
    var p1 := pressure.Swapped();
    PressureDrawsNoDt(divergence, p1, n);
    var head, pd, tail := StepHead(velocity, pressure, curl, divergence, config, dt),
      PressureDraws(divergence, p1, n), StepTail(velocity.Swapped(), SwapN(pressure.Swapped(), config.pressureIterations), dye, config, dt);
    NoDtIsDtAtMost(pd, bound);
    DtAtMostAppend(head, pd, bound);
    DtAtMostAppend(head + pd, tail, bound);
  }

  lemma WritesOfThree(a: Call, b: Call, c: Call, t: set<Handle>)
    ensures Writes([a, b, c], t) == WriteOf(a, t) + WriteOf(b, t) + WriteOf(c, t)
  {
    WritesCons(c, [], t);
    assert [b, c] == [b] + [c];
    WritesCons(b, [c], t);
    assert [a, b, c] == [a] + [b, c];
    WritesCons(a, [b, c], t);
  }

  lemma WritesOfFour(a: Call, b: Call, c: Call, d: Call, t: set<Handle>)
    ensures Writes([a, b, c, d], t) == WriteOf(a, t) + WriteOf(b, t) + WriteOf(c, t) + WriteOf(d, t)
  {
    WritesOfThree(b, c, d, t);
    assert [a, b, c, d] == [a] + [b, c, d];
    WritesCons(a, [b, c, d], t);
  }

  /** The targets the fixed passes write, field by field. */
  lemma FixedPassWrites(velocity: FboPair, pressure: FboPair, dye: FboPair, curl: Fbo, divergence: Fbo,
                        config: Config, dt: real)
    requires Disjoint(velocity, pressure, dye, curl, divergence)
    ensures var head := StepHead(velocity, pressure, curl, divergence, config, dt);
      var tail := StepTail(velocity.Swapped(), SwapN(pressure.Swapped(), config.pressureIterations), dye, config, dt);
      var v, p, d := velocity.Textures(), pressure.Textures(), dye.Textures();
      && Writes(head, v) == [velocity.write] && Writes(tail, v) == [velocity.read, velocity.write]
      && Writes(head, p) == [pressure.write] && Writes(tail, p) == []
      && Writes(head, d) == [] && Writes(tail, d) == [dye.write]
  {
    var head := StepHead(velocity, pressure, curl, divergence, config, dt);
    var tail := StepTail(velocity.Swapped(), SwapN(pressure.Swapped(), config.pressureIterations), dye, config, dt);
    forall t: set<Handle> | t == velocity.Textures() || t == pressure.Textures() || t == dye.Textures()
      ensures Writes(head, t) == WriteOf(head[0], t) + WriteOf(head[1], t) + WriteOf(head[2], t) + WriteOf(head[3], t)
      ensures Writes(tail, t) == WriteOf(tail[0], t) + WriteOf(tail[1], t) + WriteOf(tail[2], t)
    {
      WritesOfFour(head[0], head[1], head[2], head[3], t);
      WritesOfThree(tail[0], tail[1], tail[2], t);
    }
  }

  /** What the step writes into a set of textures is what its three parts write. */
  lemma StepWritesSplit(velocity: FboPair, pressure: FboPair, dye: FboPair, curl: Fbo, divergence: Fbo,
                        config: Config, dt: real, t: set<Handle>)
    ensures Writes(StepDraws(velocity, pressure, dye, curl, divergence, config, dt), t)
         == Writes(StepHead(velocity, pressure, curl, divergence, config, dt), t)
          + Writes(PressureDraws(divergence, pressure.Swapped(), config.pressureIterations), t)
          + Writes(StepTail(velocity.Swapped(), SwapN(pressure.Swapped(), config.pressureIterations), dye, config, dt), t)
  {
    var head, pd := StepHead(velocity, pressure, curl, divergence, config, dt),
      PressureDraws(divergence, pressure.Swapped(), config.pressureIterations);
    WritesAppend(head, pd, t);
    WritesAppend(head + pd, StepTail(velocity.Swapped(), SwapN(pressure.Swapped(), config.pressureIterations), dye, config, dt), t);
  }

  /** The step writes the velocity 3 times, as often as it swaps it: first
      its `write` target, then the other one, then the first again, which
      ends up as `read` after three swaps. */
  lemma StepVelocityWrites(velocity: FboPair, pressure: FboPair, dye: FboPair, curl: Fbo, divergence: Fbo,
                           config: Config, dt: real)
    requires Disjoint(velocity, pressure, dye, curl, divergence)
    ensures var w := Writes(StepDraws(velocity, pressure, dye, curl, divergence, config, dt), velocity.Textures());
      && w == [velocity.write, velocity.read, velocity.write]
      && w[2] == SwapN(velocity, 3).read
  {
    var t := velocity.Textures();
    FixedPassWrites(velocity, pressure, dye, curl, divergence, config, dt);
    StepWritesSplit(velocity, pressure, dye, curl, divergence, config, dt, t);
    assert pressure.Swapped().Textures() == pressure.Textures();
    PressureWrites(divergence, pressure.Swapped(), config.pressureIterations, t);
    var w := Writes(StepDraws(velocity, pressure, dye, curl, divergence, config, dt), t);
    assert w == [velocity.write] + [] + [velocity.read, velocity.write];
    assert SwapN(velocity, 1) == velocity.Swapped();
    assert SwapN(velocity, 2) == SwapN(velocity, 1).Swapped();
    assert SwapN(velocity, 3) == SwapN(velocity, 2).Swapped();
  }

  /** The step writes the pressure 1 + PRESSURE_ITERATIONS times, as often as
      it swaps it, and the target written last is `read` after those swaps. */
  lemma StepPressureWrites(velocity: FboPair, pressure: FboPair, dye: FboPair, curl: Fbo, divergence: Fbo,
                           config: Config, dt: real)
    requires Disjoint(velocity, pressure, dye, curl, divergence)
    ensures var w := Writes(StepDraws(velocity, pressure, dye, curl, divergence, config, dt), pressure.Textures());
      && |w| == 1 + config.pressureIterations
      && w[config.pressureIterations] == SwapN(pressure, 1 + config.pressureIterations).read
  {
    var n := config.pressureIterations;
    var p1, t := pressure.Swapped(), pressure.Textures();
    FixedPassWrites(velocity, pressure, dye, curl, divergence, config, dt);
    StepWritesSplit(velocity, pressure, dye, curl, divergence, config, dt, t);
    assert p1.Textures() == t;
    PressureWrites(divergence, p1, n, t);
    var targets := PressureTargets(p1, n);
    PressureTargetsLength(p1, n);
    var w := Writes(StepDraws(velocity, pressure, dye, curl, divergence, config, dt), t);
    assert w == [pressure.write] + targets;
    SwapNShift(pressure, n);
    if n > 0 {
      PressureLastTarget(p1, n);
      assert w[n] == targets[n - 1];
    }
  }

  /** The step writes the dye once, into what is `read` after one swap. */
  lemma StepDyeWrites(velocity: FboPair, pressure: FboPair, dye: FboPair, curl: Fbo, divergence: Fbo,
                      config: Config, dt: real)
    requires Disjoint(velocity, pressure, dye, curl, divergence)
    ensures var w := Writes(StepDraws(velocity, pressure, dye, curl, divergence, config, dt), dye.Textures());
      && w == [dye.write]
      && w[0] == SwapN(dye, 1).read
  {
    FixedPassWrites(velocity, pressure, dye, curl, divergence, config, dt);
    StepWritesSplit(velocity, pressure, dye, curl, divergence, config, dt, dye.Textures());
    PressureWrites(divergence, pressure.Swapped(), config.pressureIterations, dye.Textures());
  }

  /** A step is seven fixed passes and PRESSURE_ITERATIONS Jacobi passes. */
  lemma StepDrawsLength(velocity: FboPair, pressure: FboPair, dye: FboPair, curl: Fbo, divergence: Fbo,
                        config: Config, dt: real)
    ensures |StepDraws(velocity, pressure, dye, curl, divergence, config, dt)| == 7 + config.pressureIterations
  {
    PressureDrawsAt(divergence, pressure.Swapped(), config.pressureIterations);
  }

  /** With the configuration the driver ships (PRESSURE_ITERATIONS = 20) one
      step is 27 draws: 3 into the velocity, 21 into the pressure and 1 into
      the dye. */
  lemma DefaultStep(velocity: FboPair, pressure: FboPair, dye: FboPair, curl: Fbo, divergence: Fbo, dt: real)
    requires Disjoint(velocity, pressure, dye, curl, divergence)
    ensures var draws := StepDraws(velocity, pressure, dye, curl, divergence, DefaultConfig, dt);
      && |draws| == 27
      && |Writes(draws, velocity.Textures())| == 3
      && |Writes(draws, pressure.Textures())| == 21
      && |Writes(draws, dye.Textures())| == 1
  {
    StepDrawsLength(velocity, pressure, dye, curl, divergence, DefaultConfig, dt);
    StepVelocityWrites(velocity, pressure, dye, curl, divergence, DefaultConfig, dt);
    StepPressureWrites(velocity, pressure, dye, curl, divergence, DefaultConfig, dt);
    StepDyeWrites(velocity, pressure, dye, curl, divergence, DefaultConfig, dt);
  }

  // ---- Splats ----

  lemma {:induction false} SplatDrawsLength(splats: seq<SplatArgs>, velocity: FboPair, dye: FboPair,
                                            radius: real, aspectRatio: real)
    ensures |SplatDraws(splats, velocity, dye, radius, aspectRatio)| == 2 * |splats|
  {
    if splats != [] {
      SplatDrawsLength(splats[..|splats| - 1], velocity, dye, radius, aspectRatio);
    }
  }

  /** One more splat appends its pair, drawn with the roles after the earlier splats. */
  lemma SplatDrawsSnoc(splats: seq<SplatArgs>, s: SplatArgs, velocity: FboPair, dye: FboPair,
                       radius: real, aspectRatio: real)
    ensures SplatDraws(splats + [s], velocity, dye, radius, aspectRatio)
         == SplatDraws(splats, velocity, dye, radius, aspectRatio)
          + SplatPair(s, SwapN(velocity, |splats|), SwapN(dye, |splats|), radius, aspectRatio)
  {
    assert (splats + [s])[..|splats|] == splats;
  }

  /** The splats never sample the target they write and carry no time step. */
  lemma {:induction false} SplatDrawsHarmless(splats: seq<SplatArgs>, velocity: FboPair, dye: FboPair,
                                              radius: real, aspectRatio: real)
    requires velocity.read.texture != velocity.write.texture
    requires dye.read.texture != dye.write.texture
    ensures NoFeedback(SplatDraws(splats, velocity, dye, radius, aspectRatio))
    ensures NoDt(SplatDraws(splats, velocity, dye, radius, aspectRatio))
  {
    if splats != [] {
      var n := |splats| - 1;
      SplatDrawsHarmless(splats[..n], velocity, dye, radius, aspectRatio);
      SwapNParity(velocity, n);
      SwapNParity(dye, n);
      var prev := SplatDraws(splats[..n], velocity, dye, radius, aspectRatio);
      var pair := SplatPair(splats[n], SwapN(velocity, n), SwapN(dye, n), radius, aspectRatio);
      NoFeedbackAppend(prev, pair);
      NoDtAppend(prev, pair);
    }
  }

  /** The splats write the velocity and the dye once per splat each. */
  lemma {:induction false} SplatDrawsWrites(splats: seq<SplatArgs>, velocity: FboPair, dye: FboPair,
                                            radius: real, aspectRatio: real)
    requires velocity.Textures() !! dye.Textures()
    ensures |Writes(SplatDraws(splats, velocity, dye, radius, aspectRatio), velocity.Textures())| == |splats|
    ensures |Writes(SplatDraws(splats, velocity, dye, radius, aspectRatio), dye.Textures())| == |splats|
  {
    if splats != [] {
      var n := |splats| - 1;
      SplatDrawsWrites(splats[..n], velocity, dye, radius, aspectRatio);
      var v, d := SwapN(velocity, n), SwapN(dye, n);
      SwapNTextures(velocity, n);
      SwapNTextures(dye, n);
      var prev := SplatDraws(splats[..n], velocity, dye, radius, aspectRatio);
      var pair := SplatPair(splats[n], v, d, radius, aspectRatio);
      SplatPairWrites(splats[n], v, d, radius, aspectRatio);
      WritesAppend(prev, pair, velocity.Textures());
      WritesAppend(prev, pair, dye.Textures());
    }
  }

  /** One splat writes velocity.write among the velocity targets and
      dye.write among the dye targets. */
  lemma SplatPairWrites(s: SplatArgs, velocity: FboPair, dye: FboPair, radius: real, aspectRatio: real)
    requires velocity.Textures() !! dye.Textures()
    ensures Writes(SplatPair(s, velocity, dye, radius, aspectRatio), velocity.Textures()) == [velocity.write]
    ensures Writes(SplatPair(s, velocity, dye, radius, aspectRatio), dye.Textures()) == [dye.write]
  {
    var pair := SplatPair(s, velocity, dye, radius, aspectRatio);
    assert pair == [pair[0]] + [pair[1]];
    assert dye.write.texture !in velocity.Textures();
    assert velocity.write.texture !in dye.Textures();
    forall t: set<Handle> | t == velocity.Textures() || t == dye.Textures()
      ensures Writes(pair, t) == WriteOf(pair[0], t) + WriteOf(pair[1], t)
    {
      WritesCons(pair[1], [], t);
      WritesCons(pair[0], [pair[1]], t);
    }
  }

  // ---- A frame ----

  /** The calls of one frame are the allocations (none, or those of a
      resize), the splats, one step begun with the roles the splats leave,
      and the display pass.  Under disjoint targets no call of the frame
      samples its own target, no kernel gets a time step above `dt`, and the
      frame ends with the display draw. */
  lemma FrameHarmless(before: seq<Call>, allocation: seq<Call>, splats: seq<SplatArgs>,
                      velocity: FboPair, pressure: FboPair, dye: FboPair, curl: Fbo, divergence: Fbo,
                      config: Config, dt: real, radius: real, aspectRatio: real,
                      display: seq<Call>, dyeRead: Fbo, after: seq<Call>)
    requires NoDraws(allocation)
    requires Disjoint(velocity, pressure, dye, curl, divergence)
    requires DisplayPass(display, config.shading, dyeRead)
    requires after == before + allocation + SplatDraws(splats, velocity, dye, radius, aspectRatio)
                      + StepDraws(SwapN(velocity, |splats|), pressure, SwapN(dye, |splats|), curl, divergence, config, dt)
                      + display
    ensures |after| > |before| && after[..|before|] == before
    ensures NoFeedback(after[|before|..]) && DtAtMost(after[|before|..], dt)
    ensures after[|after| - 1] == Call.Draw(Display(config.shading), [dyeRead], Screen)
  {
    var n := |splats|;
    var sd := SplatDraws(splats, velocity, dye, radius, aspectRatio);
    var st := StepDraws(SwapN(velocity, n), pressure, SwapN(dye, n), curl, divergence, config, dt);
    NoDrawsIsHarmless(allocation, dt);
    SplatDrawsHarmless(splats, velocity, dye, radius, aspectRatio);
    NoDtIsDtAtMost(sd, dt);
    DisjointUnderSwaps(velocity, pressure, dye, curl, divergence, n, 0, n);
    StepHasNoFeedback(SwapN(velocity, n), SwapN(pressure, 0), SwapN(dye, n), curl, divergence, config, dt);
    StepDtAtMost(SwapN(velocity, n), pressure, SwapN(dye, n), curl, divergence, config, dt, dt);
    DisplayPassHarmless(display, config.shading, dyeRead);
    NoDtIsDtAtMost(display, dt);
    NoFeedbackAppend(allocation, sd);
    NoFeedbackAppend(allocation + sd, st);
    NoFeedbackAppend(allocation + sd + st, display);
    DtAtMostAppend(allocation, sd, dt);
    DtAtMostAppend(allocation + sd, st, dt);
    DtAtMostAppend(allocation + sd + st, display, dt);
    assert after == before + (allocation + sd + st + display);
    assert after[|before|..] == allocation + sd + st + display;
  }
}
