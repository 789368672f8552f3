/** The programmable shading device as the fluid simulation sees it: it hands
    out fresh opaque handles for textures, framebuffers, shaders and programs,
    and it records every call made to it, in order.  The draw calls carry the
    kernel that runs (with its scalar uniforms), the render targets bound as
    sampled inputs and the target that is written. */
module Gpu {

  /** An opaque device resource: a texture, a framebuffer, a shader or a program. */
  type Handle = nat

  datatype Vec3 = Vec3(x: real, y: real, z: real)

  /** A render target as createFBO returns it: a texture attached to a
      framebuffer, its size in cells and the size of one cell in texture
      coordinates. */
  datatype Fbo = Fbo(texture: Handle, framebuffer: Handle, width: int, height: int,
                     texelSizeX: real, texelSizeY: real)

  /** The program a draw call runs, with the scalar uniforms the driver sets
      for it.  The per-cell arithmetic of each kernel is not modelled. */
  datatype Kernel =
    | Curl
    | Vorticity(curl: real, dt: real)
    | Divergence
    | Clear(factor: real)
    | Pressure
    | GradientSubtract
    | Advection(dt: real, dissipation: real)
    | Splat(pointX: real, pointY: real, value: Vec3, radius: real, aspectRatio: real)
    | Display(shading: bool)

  /** Where a draw call writes: the visible surface or an off-screen target. */
  datatype Target = Screen | Offscreen(fbo: Fbo)

  /** What a uniform table was fetched from. */
  datatype UniformTable = NoUniforms | UniformsOf(program: Handle)

  datatype Call =
    | CreateTexture(texture: Handle, width: int, height: int)
    | CreateFramebuffer(framebuffer: Handle, texture: Handle)
    | CompileShader(shader: Handle, source: string)
    | LinkProgram(program: Handle, vertexShader: Handle, fragmentShader: Handle)
    | GetUniforms(program: Handle)
    | Draw(kernel: Kernel, inputs: seq<Fbo>, target: Target)

  /** A draw call whose target texture is also one of its sampled inputs. */
  predicate IsFeedback(c: Call)
  {
    c.Draw? && c.target.Offscreen? &&
    exists k :: 0 <= k < |c.inputs| && c.inputs[k].texture == c.target.fbo.texture
  }

  /** None of `calls` draws. */
  predicate NoDraws(calls: seq<Call>)
  {
    forall k :: 0 <= k < |calls| ==> !calls[k].Draw?
  }

  class Device {
    /** The next handle the device gives out; every smaller one is taken. */
    var next: Handle
    /** Every call made to the device so far, oldest first. */
    var log: seq<Call>

    constructor ()
      ensures next == 0 && log == []
    {
      next := 0;
      log := [];
    }

    method CreateTexture(width: int, height: int) returns (t: Handle)
      modifies this
      ensures t == old(next) && next == old(next) + 1
      ensures log == old(log) + [Call.CreateTexture(t, width, height)]
    {
      t := next;
      next := next + 1;
      log := log + [Call.CreateTexture(t, width, height)];
    }

    method CreateFramebuffer(texture: Handle) returns (f: Handle)
      modifies this
      ensures f == old(next) && next == old(next) + 1
      ensures log == old(log) + [Call.CreateFramebuffer(f, texture)]
    {
      f := next;
      next := next + 1;
      log := log + [Call.CreateFramebuffer(f, texture)];
    }

    method CompileShader(source: string) returns (s: Handle)
      modifies this
      ensures s == old(next) && next == old(next) + 1
      ensures log == old(log) + [Call.CompileShader(s, source)]
    {
      s := next;
      next := next + 1;
      log := log + [Call.CompileShader(s, source)];
    }

    method CreateProgram(vertexShader: Handle, fragmentShader: Handle) returns (p: Handle)
      modifies this
      ensures p == old(next) && next == old(next) + 1
      ensures log == old(log) + [Call.LinkProgram(p, vertexShader, fragmentShader)]
    {
      p := next;
      next := next + 1;
      log := log + [Call.LinkProgram(p, vertexShader, fragmentShader)];
    }

    method GetUniforms(program: Handle) returns (u: UniformTable)
      modifies this
      ensures u == UniformsOf(program) && next == old(next)
      ensures log == old(log) + [Call.GetUniforms(program)]
    {
      u := UniformsOf(program);
      log := log + [Call.GetUniforms(program)];
    }

    /** One full-screen quad drawn with `kernel` into `target`. */
    method Blit(kernel: Kernel, inputs: seq<Fbo>, target: Target)
      modifies this
      ensures next == old(next)
      ensures log == old(log) + [Call.Draw(kernel, inputs, target)]
    {
      log := log + [Call.Draw(kernel, inputs, target)];
    }
  }
}
