# Fluid cursor: a model of the bookkeeping of `js/cursor.js`

`js/cursor.js` runs a small GPU fluid simulation behind the mouse cursor. Each animation frame it does three things:

- It splats every pointer that moved into the velocity and dye fields.
- It runs one simulation step made of seven kinds of fragment-shader pass: curl, vorticity, divergence, pressure decay, the Jacobi pressure pass, gradient subtraction and advection.
- It draws the dye to the screen.

This project models the bookkeeping around those passes, not the shader arithmetic. It covers:

- which targets are allocated;
- which program variant is compiled and when;
- which texture each pass reads and which it writes;
- how the double-buffered fields swap roles;
- how pointer events become splats.

The model is split into these modules:

- **Gpu** (`gpu.dfy`): the WebGL context becomes a `Device`. It hands out fresh handles and keeps a log of every call made to it: textures, framebuffers, shader compiles, program links, uniform lookups and draws. A `Draw` records three things. The first is its kernel with the kernel's scalar and vector uniforms: a splat carries its point and its vec3 value, and the display pass whether it shades. The others are the targets it samples and the target it renders into.
- **Formats** (`formats.dfy`): the render-texture format fallback of `getSupportedFormat`.
- **Shaders** (`shaders.dfy`):
  - the 32-bit string hash `hashCode`, proved equal to a wrapped polynomial;
  - the `#define` prefix of `addKeywords`;
  - the `Material` class, which keeps one linked program per keyword key (`setKeywords`).
- **Fields** (`fields.dfy`):
  - `createFBO`;
  - the double-buffered field of `createDoubleFBO`, whose `swap` exchanges the `read` and `write` roles;
  - the grid size of `getResolution`.
- **Input** (`input.dfy`): the `Pointer` record, `updatePointerDownData`, `updatePointerMoveData` and `scaleByPixelRatio`.
- **Schedule** (`schedule.dfy`): the draws of one `step` and of the pointer splats, written as pure functions of the fields' roles, and what they guarantee:
  - no pass samples the texture it renders into;
  - every time step a kernel gets is the frame's `dt` (`StepDtIs`);
  - each field is written exactly as often as it is swapped;
  - what a field's `read` names after the step is the target written last.
- **Simulation** (`simulation.dfy`): the driver `Fluid`. It covers the canvas size, the five targets, the display material and the pointer list. Its operations are `update` with its time-step clamp and pointer loop, `step`, `splat`, `render`, `resizeCanvas`, `initFramebuffers` and the four input handlers.

Every imperative operation of the source is a method. Those that call the GPU extend the device log, and most of them state the new log exactly, as the old log followed by a pure function of the old state. The pointer updates, `resizeCanvas` and the four input handlers change only pointer or canvas fields and state their new values; `hashCode`, `addKeywords` and the key loop of `setKeywords` change nothing and state their results. The pure functions are `AllocationCalls`, `SplatDraws`, `StepDraws` and `UniformFetch`. At the top, `update` and its parts also state the display pass by the `DisplayPass` predicate, because the calls before its final draw are stated only as drawing nothing. The source's promises are proved about these functions as lemmas.

## Model

| member | source | states |
|---|---|---|
| `Formats.FallbackChain` | js/cursor.js:118-125 | The formats tried for a request, in order: R16F falls back to RG16F with the RG layout, RG16F to RGBA16F with the RGBA layout, and the chain ends there or at any other format. It is the independent reference `SupportedFormatIsFirstOfChain` compares the fallback with |
| `Formats.FirstSupported` | js/cursor.js:116-128 | The reference search: the first format of a chain the device can render into, or none |
| `Formats.GetSupportedFormat` | js/cursor.js:116-128 | A format it returns is supported and has at least as many channels as the one asked for; a supported request is returned unchanged |
| `Formats.SupportedFormatIsFirstOfChain` | js/cursor.js:116-128 | The result is the first supported format of the chain R16F, RG16F, RGBA16F (from the requested one on); it is null exactly when no format of that chain is supported |
| `Formats.NoneIffNoneSupported` | js/cursor.js:116-128 | The search finds nothing exactly when no format of the chain is supported |
| `Shaders.ToInt32` | js/cursor.js:237 | The bitwise or with 0 that ends each turn of hashCode, on an integer: the result is a signed 32-bit integer congruent to the input modulo 2^32 |
| `Shaders.ShiftLeft5` | js/cursor.js:236 | `hash << 5`: the result is a signed 32-bit integer congruent to 32 × hash modulo 2^32 |
| `Shaders.CharCode` | js/cursor.js:236 | `charCodeAt`: the code of the character |
| `Shaders.HashCode` | js/cursor.js:232-240 | The empty string hashes to 0; the result is a signed 32-bit integer; it equals the 31x fold with wrapping, although the loop computes `(h << 5) - h + c` |
| `Shaders.StringHashIsWrappedPolynomial` | js/cursor.js:232-240 | Wrapping after every character gives the same value as wrapping the exact polynomial sum of code × 31^k once |
| `Shaders.KnownHashes` | js/cursor.js:232-240 | "SHADING" hashes to -1523179638; "Aa" and "BB" collide at 2112 |
| `Shaders.DefineLine` | js/cursor.js:227 | The line `#define <keyword>` and a newline |
| `Shaders.KeywordLines` | js/cursor.js:225-228 | The `#define` lines of the keywords, in list order. `KeywordLinesAppend` and `AddKeywords` state what it is |
| `Shaders.AddKeywords` | js/cursor.js:223-230 | A null keyword list returns the source unchanged; otherwise one `#define` line per keyword, in order, then the source, which is always a suffix of the result |
| `Shaders.KeywordLinesAppend` | js/cursor.js:226-228 | Adding one keyword at the end adds exactly its `#define` line at the end of the prefix |
| `Shaders.StringHash` | js/cursor.js:232-240 | The reference fold of the hash: h := 31 h + code, wrapped to a signed 32-bit integer after every character. `HashCode` is proved equal to it, and `StringHashIsWrappedPolynomial` relates it to the exact polynomial |
| `Shaders.KeywordsKey` | js/cursor.js:166-167 | The reference memo key: the plain, unwrapped sum of the keywords' string hashes. `KeywordsHash`, `KeywordsKeyAppend`, `KeywordsKeyIgnoresOrder` and `KeywordsKeyCollisions` state what it is |
| `Shaders.KeywordsHash` | js/cursor.js:166-167 | The memo key is the sum of the keywords' string hashes |
| `Shaders.KeywordsKeyAppend` | js/cursor.js:166-167 | The key of two lists joined is the sum of their keys |
| `Shaders.KeywordsKeyIgnoresOrder` | js/cursor.js:166-167 | Lists with the same keywords, counted with repetition, share a key, whatever their order and length |
| `Shaders.KeywordsKeyCollisions` | js/cursor.js:166-167 | Different keyword lists share a key even when one is not a reordering of the other: `["Aa"]` and `["BB"]`, and `["Aa", "Aa"]` and `["BB", "Aa"]` |
| `Shaders.CompileVariant` | js/cursor.js:169-175 | Compiles the fragment source with the keyword prefix, then links it with the vertex shader; the program is the fresh handle after the shader's |
| `Shaders.Material.constructor` | js/cursor.js:157-164 | A new material has no programs, no active program and no uniforms |
| `Shaders.Material.SetKeywords` | js/cursor.js:165-181 | Afterwards the key's program exists and is active, and the uniforms are that program's. A key is compiled and linked only if it is absent, so no key is compiled twice. Earlier programs are kept. Uniforms are fetched only when the active program changes. No draw happens |
| `Shaders.UniformFetch` | js/cursor.js:179-180 | The uniform lookup of setKeywords: none when the program is already active, otherwise exactly one lookup of that program. `Material.SetKeywords` logs exactly these calls after any compile |
| `Gpu.Device.CreateTexture` | js/cursor.js:567 | Returns a fresh handle and logs the allocation |
| `Gpu.Device.CreateFramebuffer` | js/cursor.js:584 | Returns a fresh handle and logs it with its texture |
| `Gpu.Device.CompileShader` | js/cursor.js:215-221 | Returns a fresh shader handle and logs the source compiled |
| `Gpu.Device.CreateProgram` | js/cursor.js:197-203 | Returns a fresh program handle and logs the link of the two shaders |
| `Gpu.Device.GetUniforms` | js/cursor.js:205-213 | Yields the uniform table of that program and logs the lookup |
| `Gpu.Device.Blit` | js/cursor.js:473-485 | Logs one draw into the target; a null target is the screen |
| `Fields.AllocationCalls` | js/cursor.js:565-634 | The four calls createDoubleFBO makes: a texture and its framebuffer for the first target, then for the second, each at the target's size |
| `Fields.CreateFbo` | js/cursor.js:565-606 | A target of the requested size, with texel sizes 1/w and 1/h, built from two fresh handles |
| `Fields.DoubleFbo.constructor` | js/cursor.js:608-634 | Two separately allocated targets of one size, with different textures |
| `Fields.DoubleFbo.Swap` | js/cursor.js:628-632 | Exchanges read and write, keeps the field valid (textures distinct, sizes and texel sizes unchanged) and counts one swap |
| `Fields.SwapN` | js/cursor.js:628-632 | The roles after n swaps. `SwapTwiceRestores`, `SwapNParity`, `SwapNTextures` and `SwapNAdd` state what it is |
| `Fields.SwapTwiceRestores` | js/cursor.js:628-632 | Two swaps restore the roles |
| `Fields.SwapNParity` | js/cursor.js:628-632 | After n swaps the roles depend only on the parity of n |
| `Fields.SwapNTextures` | js/cursor.js:628-632 | Swapping never changes which two textures a field owns |
| `Fields.SwapNAdd` | js/cursor.js:628-632 | m swaps followed by n swaps are m + n swaps |
| `Fields.GetResolution` | js/cursor.js:555-563 | The grid size of getResolution, with the source's inversion of a ratio below 1 and its rounding. `ResolutionShape`, `ResolutionWide`, `ResolutionTall` and `ResolutionPositive` state what it is |
| `Fields.ResolutionWide` | js/cursor.js:555-563 | A buffer wider than high gets round(resolution × width/height) columns and round(resolution) rows, so no fewer columns than rows |
| `Fields.ResolutionTall` | js/cursor.js:555-563 | A buffer higher than wide gets round(resolution) columns and round(resolution × height/width) rows, so no fewer rows than columns |
| `Fields.Round` | js/cursor.js:558-559 | `Math.round`: the integer r with r ≤ x + 1/2 < r + 1, that is the nearest integer with halves rounded up |
| `Fields.ResolutionShape` | js/cursor.js:555-563 | The shorter side gets round(resolution) cells and the longer side round(resolution × aspect), so at least as many; a square buffer gets round(resolution) on both sides |
| `Fields.ResolutionPositive` | js/cursor.js:555-563 | A resolution of at least 1/2 gives every side at least one cell |
| `Fields.AspectRatio` | js/cursor.js:556-557 | After inversion the ratio is the longer side over the shorter, and at least 1 |
| `Input.ScaleByPixelRatio` | js/cursor.js:637-639 | The value in device pixels rounded down; a missing ratio counts as 1 |
| `Input.AxisScale` | js/cursor.js:697-702 | The delta factor is at least 1; it is 1 on the shorter axis, and scaling the other side by it gives the longer side |
| `Input.TexcoordX` | js/cursor.js:683 | The column as a fraction of the canvas width. `TexcoordsInjective` states that it is injective |
| `Input.TexcoordY` | js/cursor.js:684 | The row, counted from the bottom, as a fraction of the canvas height |
| `Input.TexcoordsInjective` | js/cursor.js:683-684 | Different device pixels have different texture coordinates |
| `Input.DownState` | js/cursor.js:679-690 | A pressed pointer is down and not moved, has no delta and has its previous position equal to the current one |
| `Input.MoveState` | js/cursor.js:692-705 | The old position becomes the previous one and the new one is the event's texture coordinates. The delta is the step in texture coordinates times the axis's aspect correction. The pointer is marked moved exactly when its position changed, and exactly when its delta is non-zero. Id and down are kept, and the colour is the one given |
| `Input.MoveToDownPointIsStill` | js/cursor.js:874-892 | The move that follows the implicit press of a first mouse move changes nothing, so it makes no splat |
| `Input.SecondMoveWins` | js/cursor.js:692-705 | Of two moves before a frame, only the step from the first point to the second remains in the delta |
| `Input.Pointer.constructor` | js/cursor.js:33-44 | A new pointer is up, not moved, at the origin, with id -1 |
| `Input.Pointer.UpdateDownData` | js/cursor.js:671-690 | The pointer is in the pressed state, with a colour from the two-colour palette |
| `Input.Pointer.UpdateMoveData` | js/cursor.js:692-705 | The pointer is in the moved state of its old state |
| `Schedule.StepDraws` | js/cursor.js:733-826 | The reference schedule of one step: the head passes, the Jacobi passes and the tail passes, each pass reading and writing the roles the fields have at that point. The `Step*` lemmas below state what it guarantees |
| `Schedule.StepHead` | js/cursor.js:735-770 | Curl into curl, vorticity into velocity.write, divergence of the swapped velocity, pressure decay into pressure.write |
| `Schedule.PressureDraws` | js/cursor.js:772-783 | n Jacobi passes, pass k reading the pressure after k swaps and writing its other target |
| `Schedule.StepTail` | js/cursor.js:785-825 | Gradient subtraction and velocity advection, each into the current velocity.write, then dye advection by the velocity after both swaps |
| `Schedule.StepDrawsLength` | js/cursor.js:733-826 | A step is seven fixed passes plus PRESSURE_ITERATIONS Jacobi passes |
| `Schedule.DefaultStep` | js/cursor.js:15-31 | With the shipped configuration (PRESSURE_ITERATIONS = 20) a step is 27 draws: 3 into the velocity, 21 into the pressure and 1 into the dye |
| `Schedule.PressureDrawsNoFeedback` | js/cursor.js:772-783 | No Jacobi pass reads the pressure target it writes |
| `Schedule.PressureDrawsNoDt` | js/cursor.js:772-783 | The Jacobi passes carry no time step |
| `Schedule.StepHasNoFeedback` | js/cursor.js:733-826 | No draw of a step samples the texture it renders into |
| `Schedule.StepDtIs` | js/cursor.js:744-825 | Every time step a step's kernels receive (vorticity and the two advections) is the step's own dt |
| `Schedule.StepDtAtMost` | js/cursor.js:744-825 | Every time step a step's kernels receive is at most any bound on the step's dt |
| `Schedule.StepVelocityWrites` | js/cursor.js:744-816 | The step writes the velocity three times, alternating between its targets; after three swaps, the last target written is velocity.read |
| `Schedule.StepPressureWrites` | js/cursor.js:766-783 | The step writes the pressure 1 + PRESSURE_ITERATIONS times; the last target written is pressure.read after that many swaps |
| `Schedule.StepDyeWrites` | js/cursor.js:818-825 | The step writes the dye once, into the target that is dye.read after one swap |
| `Schedule.SplatPair` | js/cursor.js:843-860 | One splat: the impulse (dx, dy, 0) into velocity.write reading velocity.read, then the colour into dye.write reading dye.read, both at the pointer's point |
| `Schedule.SplatDraws` | js/cursor.js:715-726 | The reference splat schedule: splat k is drawn with the roles the fields have after k splats |
| `Schedule.DisplayPass` | js/cursor.js:828-841 | The display pass: calls that draw nothing, then one draw of the dye's read target to the screen with the configured variant |
| `Schedule.DisplayPassHarmless` | js/cursor.js:828-841 | A display pass samples no target it writes and carries no time step |
| `Schedule.FrameHarmless` | js/cursor.js:708-731 | A frame made of allocations, the splats, one step begun with the roles the splats leave, and a display pass has no draw that samples its own target and no time step above dt, and it ends with the display draw |
| `Schedule.SplatDrawsHarmless` | js/cursor.js:843-860 | Splats never sample their own target and carry no time step |
| `Schedule.SplatDrawsWrites` | js/cursor.js:843-860 | Each splat writes the velocity once and the dye once |
| `Schedule.SplatPairWrites` | js/cursor.js:843-860 | One splat writes velocity.write among the velocity targets and dye.write among the dye targets, and nothing else of theirs |
| `Schedule.SplatDrawsLength` | js/cursor.js:843-860 | Each splat is exactly two draws |
| `Simulation.ClampDt` | js/cursor.js:710 | The step time is the elapsed seconds, but never more than 0.016666 |
| `Simulation.DisplayVariantsDiffer` | js/cursor.js:831 | The shaded and the plain display variants have different memo keys, so they are different programs |
| `Simulation.DisplayKeywords` | js/cursor.js:831 | SHADING selects the keyword list `["SHADING"]`, and otherwise the empty list |
| `Simulation.SplatOf` | js/cursor.js:716-725 | The splat of a moved pointer: at its position, with its delta times SPLAT_FORCE and its colour |
| `Simulation.MovedSplats` | js/cursor.js:715-726 | The reference list of a frame's splats: one per moved pointer, in pointer order. The `MovedSplats*`, `StillPointersDoNotSplat` and `PointerLoopStep` lemmas state what it is |
| `Simulation.MovedSplatsStep` | js/cursor.js:716-725 | One more pointer adds its splat exactly if it moved |
| `Simulation.MovedSplatsAppend` | js/cursor.js:715-726 | The splats of a pointer list are the splats of its parts, in order |
| `Simulation.StillPointersDoNotSplat` | js/cursor.js:715-726 | If no pointer moved there is no splat |
| `Simulation.MovedSplatsBound` | js/cursor.js:715-726 | There are never more splats than pointers |
| `Simulation.PointerLoopStep` | js/cursor.js:716-725 | One turn of the loop adds exactly the splat of that pointer if it moved, drawn with the roles left by the earlier splats |
| `Simulation.AllocationHasNoDraws` | js/cursor.js:504-553 | Allocating the targets draws nothing |
| `Simulation.StatesOf` | js/cursor.js:46 | The snapshot list has one entry per pointer, in order |
| `Simulation.Consumed` | js/cursor.js:717 | A pointer with `moved` cleared and nothing else changed |
| `Simulation.FboCalls` | js/cursor.js:565-606 | The two calls createFBO makes: the texture at the target's size, then its framebuffer |
| `Simulation.ConsumedAll` | js/cursor.js:717 | Every pointer is kept except that it is marked not moved |
| `Simulation.AllocateFields` | js/cursor.js:504-553 | The targets are dye, velocity, divergence, curl and pressure, in that order. The sizes come from getResolution of the two resolutions, and no two targets share a texture |
| `Simulation.HandlesDisjoint` | js/cursor.js:504-553 | Targets allocated one after another from one handle on share no texture |
| `Simulation.Fluid.constructor` | js/cursor.js:919-922 | After set-up the canvas has the client size in device pixels and the targets are sized for it. There is one pointer, in its initial state. The display material is empty and the clock is at `now`. The device log gains exactly the vertex shader's compile followed by the allocation calls of dye, velocity, divergence, curl and pressure, into fresh targets |
| `Simulation.Fluid.ResizeCanvas` | js/cursor.js:862-871 | The canvas gets the client size in device pixels; the result is true exactly when the size changed; the targets are untouched |
| `Simulation.Fluid.InitFramebuffers` | js/cursor.js:504-553 | Fresh targets sized for the current canvas, with no swaps and every allocation logged in order |
| `Simulation.Fluid.SplatRadius` | js/cursor.js:852 | The radius uniform: SPLAT_RADIUS / 100 |
| `Simulation.Fluid.AspectRatio` | js/cursor.js:846-849 | The aspect-ratio uniform: canvas width over canvas height |
| `Simulation.Fluid.Splat` | js/cursor.js:843-860 | One impulse into the velocity and one colour into the dye, each followed by a swap of that field |
| `Simulation.Fluid.SplatPointer` | js/cursor.js:716-725 | One turn of the loop keeps the loop invariant: the pointers before i+1 are consumed and the rest untouched, velocity and dye are swapped once per splat so far, and the log ends with the splats of the pointers before i+1 |
| `Simulation.Fluid.SplatIfMoved` | js/cursor.js:716-725 | A moved pointer is marked not moved and splatted with its delta times SPLAT_FORCE; a still pointer changes nothing |
| `Simulation.Fluid.SplatMovedPointers` | js/cursor.js:715-726 | One splat per moved pointer, in pointer order, with its latest delta. After the loop every pointer is marked not moved. Velocity and dye swap once per splat. No splat samples its target |
| `Simulation.Fluid.Step` | js/cursor.js:733-826 | The step swaps pressure 1 + PRESSURE_ITERATIONS times, velocity 3 times and dye once. Its draws are exactly `StepDraws` of the old roles; no draw samples its own target, and no time step exceeds dt (by `StepDtIs` each one is dt) |
| `Simulation.Fluid.HeadPasses` | js/cursor.js:735-770 | Curl, vorticity, divergence and pressure decay, with one velocity swap and one pressure swap |
| `Simulation.Fluid.PressurePasses` | js/cursor.js:772-783 | PRESSURE_ITERATIONS Jacobi passes, each reading the current pressure and followed by a swap |
| `Simulation.Fluid.TailPasses` | js/cursor.js:785-825 | Gradient subtraction and velocity advection (two velocity swaps), then dye advection (one dye swap) |
| `Simulation.Fluid.Render` | js/cursor.js:828-841 | The display variant for SHADING becomes active. The calls it adds are a display pass: set-up calls that draw nothing, then one draw of dye.read to the screen |
| `Simulation.Fluid.Update` | js/cursor.js:708-731 | The clock advances to now, and the canvas gets the client size. The targets are reallocated exactly when the canvas size changed: then the three double fields are new and their 16 allocation calls are logged; otherwise every target and the log prefix are kept. The log then gets the splats of the moved pointers, one step with dt = min(elapsed s, 0.016666) begun with the roles the splats leave, and a display pass. Velocity is swapped n + 3 times, pressure 1 + PRESSURE_ITERATIONS times and dye n + 1 times, for n splats. Every pointer is marked not moved. No draw samples its own target, and the frame ends with drawing the dye to the screen |
| `Simulation.Fluid.PrepareFrame` | js/cursor.js:709-713 | The clamped dt and the new time stamp. It reports a resize exactly when the canvas size changed. A resize gives fresh targets with no swaps and logs exactly their 16 allocation calls; otherwise the targets and the log are unchanged |
| `Simulation.Fluid.DrawFrame` | js/cursor.js:715-729 | The log gets the splats of the moved pointers, then the step's draws with the roles the splats leave, then a display pass. Velocity is swapped n + 3 times, pressure 1 + PRESSURE_ITERATIONS times and dye n + 1 times, for n splats. Every pointer is marked not moved |
| `Simulation.Fluid.Advance` | js/cursor.js:728-729 | step then render: the log gets exactly the step's draws and then a display pass. Velocity is swapped 3 times, pressure 1 + PRESSURE_ITERATIONS times and dye once. The pointers are untouched |
| `Simulation.Fluid.OnMouseMove` | js/cursor.js:874-892 | A move while the button is down moves the pointer. A move while it is up first presses at that point, so the pointer ends pressed there and not moved |
| `Simulation.Fluid.OnMouseDown` | js/cursor.js:894-901 | Presses pointer 0 with id -1 and a palette colour |
| `Simulation.Fluid.OnTouchStart` | js/cursor.js:902-909 | Presses pointer 0 with the first target touch's identifier |
| `Simulation.Fluid.OnTouchMove` | js/cursor.js:910-917 | Moves pointer 0 to the first target touch, keeping its colour |

## Left out

- Shader arithmetic: the GLSL texts and what the kernels compute are not modelled. A draw records only its kernel and the kernel's scalar and vector uniforms (a splat's point and vec3 value, the display pass's shading flag).
- Uniforms that are not scalars: texel-size uniforms and texture-unit bindings (`attach`) are not recorded.
- Raster state: the quad buffers, viewport, blending and clear of `blit` are not modelled.
- Context probing: `getWebGLContext` and `supportRenderTextureFormat` are not part of this model. Renderability is the `supported` parameter of `GetSupportedFormat`.
- Filtering and formats: texture filtering, wrap modes and texture formats are not recorded in the allocation calls.
- Programs built at start-up: the `Program` class and the nine fixed programs are not modelled, since they are built once. Draws name their kernel directly, and only the base vertex shader's compile is logged.
- Old targets: initFramebuffers does not delete them, and neither does the model.
- The DOM, the clock and `requestAnimationFrame` are not modelled:
  - the time `now` and the client size are parameters of `Update`;
  - the frame loop is the caller's repeated calls;
  - the first call of `update` at start-up is the caller's.
- The drawing buffer is taken to be the canvas size.
- Simulation.Fluid.Update, Simulation.Fluid.PrepareFrame, Simulation.Fluid.AspectRatio, Simulation.Fluid.constructor, Simulation.Fluid.ResizeCanvas, Simulation.Fluid.OnMouseMove, Simulation.Fluid.OnMouseDown, Simulation.Fluid.OnTouchStart, Simulation.Fluid.OnTouchMove and Simulation.AllocateFields require the canvas to be at least one device pixel wide and high; the other `Fluid` methods require it through the invariant `Base()`. The source divides by that size, and a zero size (infinite or NaN coordinates) is not modelled.
- Input.Pointer.UpdateDownData: `generateColor` uses `Math.random`, so the colour is left as any colour of the palette.
- Numbers: JavaScript numbers are modelled as exact reals, except where the source truncates to 32 bits (`hashCode`). Floating-point rounding is not modelled.
- `charCodeAt` is the character's code; UTF-16 surrogate pairs are not modelled.
- Input.Pointer.constructor: a new pointer's colour is the array `[0, 0, 0]`, which has no `r`, `g` or `b` fields. A splat with that colour would pass `undefined` three times to `uniform3f`, giving NaN. The model gives the new pointer the colour (0, 0, 0) instead. Every press sets a palette colour, so that colour reaches a splat only when a touch move comes before any press: the mouse-move handler presses first, and the touch-move handler does not.
- Touches: only `targetTouches[0]` is read, as in the source.
- Unused code: the unused configuration fields and `HSVtoRGB` are left out, as are `CAPTURE_RESOLUTION`, `COLOR_UPDATE_SPEED`, `PAUSED`, `BACK_COLOR` and `TRANSPARENT`.
- Shaders.Material.SetKeywords: the memo is keyed by the sum of keyword hashes. Two keyword lists with equal sums share a program, as in the source (`KeywordsKeyCollisions` exhibits such a pair). The contract names the program by key, not by keyword list.
- Simulation.Fluid.Update: the contract states every draw of the frame in order, and the allocation calls exactly, but the display pass's set-up calls only as calls that draw nothing (`DisplayPass`). Those set-up calls are stated exactly by `Shaders.Material.SetKeywords`.
- Simulation.Fluid.Render: the contract states that the calls before the final draw draw nothing, not which ones they are. They are stated exactly by `Shaders.Material.SetKeywords`.
- Simulation.Fluid.InitFramebuffers: the source reads `internalFormat` and `format` of the three results of `getSupportedFormat` (js/cursor.js:508-552), and these results are null when no format of their chain is renderable. `initFramebuffers` then throws a TypeError, which the start-up code catches and logs (js/cursor.js:929-934), and the cursor never starts; the fallback background (js/cursor.js:9-11) is not applied in that case. The model's allocation cannot fail, so this error path is not modelled. `Formats.NoneIffNoneSupported` states when the null result occurs.
