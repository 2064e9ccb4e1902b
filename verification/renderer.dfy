/** The WebGL renderer as VRViewerEffect.js drives it, seen through the calls
    it receives. A `RecordingRenderer` keeps the trace of calls made on it;
    `Run` interprets a trace against the renderer's viewport and scissor
    state and yields the render passes it draws, each with the viewport,
    scissor rectangle and scissor-test flag in force at the time. */
module Renderer {
  import opened Wrappers

  type SceneId = nat

  /** The camera a pass renders with: the caller's camera, or one of the
      effect's two eye cameras. */
  datatype CameraRef = Caller(id: nat) | EyeCameraL | EyeCameraR

  datatype Rect = Rect(x: real, y: real, width: real, height: real)

  /** One call on the renderer. A scene of `None` is JavaScript's
      `undefined` (an array index past the end). */
  datatype Call =
    | SetSize(width: real, height: real)
    | SetViewport(viewport: Rect)
    | SetScissor(scissor: Rect)
    | EnableScissorTest(enabled: bool)
    | Clear
    | Render(scene: Option<SceneId>, camera: CameraRef)

  datatype GlState = GlState(width: real, height: real, viewport: Rect, scissor: Rect, scissorTest: bool, clears: nat)

  datatype Pass = Pass(scene: Option<SceneId>, camera: CameraRef, viewport: Rect, scissor: Rect, scissorTest: bool)

  /** The effect of one call: a render call draws a pass under the current
      state, every other call changes the state. Setting the size also sets
      the viewport to the whole canvas, as three.js's `setSize` does. */
  function Step(s: GlState, c: Call): (r: (GlState, seq<Pass>))
    ensures c.Render? ==> r.0 == s && r.1 == [Pass(c.scene, c.camera, s.viewport, s.scissor, s.scissorTest)]
    ensures !c.Render? ==> r.1 == []
    ensures r.0.scissorTest == (if c.EnableScissorTest? then c.enabled else s.scissorTest)
    ensures r.0.viewport == (if c.SetViewport? then c.viewport
                             else if c.SetSize? then Rect(0.0, 0.0, c.width, c.height)
                             else s.viewport)
    ensures r.0.scissor == (if c.SetScissor? then c.scissor else s.scissor)
  {
    match c
    case SetSize(w, h) => (s.(width := w, height := h, viewport := Rect(0.0, 0.0, w, h)), [])
    case SetViewport(v) => (s.(viewport := v), [])
    case SetScissor(r) => (s.(scissor := r), [])
    case EnableScissorTest(b) => (s.(scissorTest := b), [])
    case Clear => (s.(clears := s.clears + 1), [])
    case Render(scene, camera) => (s, [Pass(scene, camera, s.viewport, s.scissor, s.scissorTest)])
  }

  /** The number of render calls in a trace. */
  function RenderCount(calls: seq<Call>): nat {
    if calls == [] then 0
    else RenderCount(calls[..|calls| - 1]) + (if calls[|calls| - 1].Render? then 1 else 0)
  }

  /** The state after a trace and the passes it draws, in order: one pass
      per render call. */
  function Run(s: GlState, calls: seq<Call>): (r: (GlState, seq<Pass>))
    ensures |r.1| == RenderCount(calls)
  {
    if calls == [] then (s, [])
    else
      var before := Run(s, calls[..|calls| - 1]);
      var after := Step(before.0, calls[|calls| - 1]);
      (after.0, before.1 + after.1)
  }

  /** Running a trace and then one more call. */
  lemma RunSnoc(s: GlState, a: seq<Call>, c: Call)
    ensures Run(s, a + [c]).0 == Step(Run(s, a).0, c).0
    ensures Run(s, a + [c]).1 == Run(s, a).1 + Step(Run(s, a).0, c).1
  {
    assert (a + [c])[..|a|] == a;
  }

  /** Running two traces one after the other is running their
      concatenation: the passes of the whole are those of the first part
      followed by those of the second. */
  lemma {:induction false} RunAppend(s: GlState, a: seq<Call>, b: seq<Call>)
    ensures Run(s, a + b).0 == Run(Run(s, a).0, b).0
    ensures Run(s, a + b).1 == Run(s, a).1 + Run(Run(s, a).0, b).1
    decreases |b|
  {
    if b == [] {
      assert a + b == a;
    } else {
      var b' := b[..|b| - 1];
      assert (a + b)[..|a + b| - 1] == a + b';
      assert (a + b)[|a + b| - 1] == b[|b| - 1];
      RunAppend(s, a, b');
    }
  }

  /** A renderer that records every call made on it. */
  class RecordingRenderer {
    var width: real
    var height: real
    var calls: seq<Call>

    constructor (width: real, height: real)
      ensures this.width == width && this.height == height && calls == []
    {
      this.width := width;
      this.height := height;
      calls := [];
    }

    method SetSize(width: real, height: real)
      modifies this
      ensures this.width == width && this.height == height
      ensures calls == old(calls) + [Call.SetSize(width, height)]
    {
      this.width := width;
      this.height := height;
      calls := calls + [Call.SetSize(width, height)];
    }

    method GetSize() returns (width: real, height: real)
      ensures width == this.width && height == this.height
    {
      width := this.width;
      height := this.height;
    }

    method SetViewport(x: real, y: real, width: real, height: real)
      modifies this`calls
      ensures calls == old(calls) + [Call.SetViewport(Rect(x, y, width, height))]
    {
      calls := calls + [Call.SetViewport(Rect(x, y, width, height))];
    }

    method SetScissor(x: real, y: real, width: real, height: real)
      modifies this`calls
      ensures calls == old(calls) + [Call.SetScissor(Rect(x, y, width, height))]
    {
      calls := calls + [Call.SetScissor(Rect(x, y, width, height))];
    }

    method EnableScissorTest(enabled: bool)
      modifies this`calls
      ensures calls == old(calls) + [Call.EnableScissorTest(enabled)]
    {
      calls := calls + [Call.EnableScissorTest(enabled)];
    }

    method Clear()
      modifies this`calls
      ensures calls == old(calls) + [Call.Clear]
    {
      calls := calls + [Call.Clear];
    }

    method Render(scene: Option<SceneId>, camera: CameraRef)
      modifies this`calls
      ensures calls == old(calls) + [Call.Render(scene, camera)]
    {
      calls := calls + [Call.Render(scene, camera)];
    }
  }
}
