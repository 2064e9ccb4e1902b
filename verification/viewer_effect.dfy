/** The stereo effect of VRViewerEffect.js (`THREE.VRViewerEffect`): it picks
    the first head-mounted display among the devices it is given, sets the
    camera rig up from that display's eye parameters, gates fullscreen
    requests, and renders each frame either once with the caller's camera or
    twice, once per eye, into the two halves of the canvas. */
module ViewerEffect {
  import opened Wrappers
  import opened CameraRig
  import opened Renderer

  datatype EyeParameters = EyeParameters(eyeTranslation: Vec3, recommendedFieldOfView: FieldOfView)

  /** How a display reports its eyes: through `getEyeParameters` when it has
      that method, otherwise through the older `getEyeTranslation` and
      `getRecommendedEyeFieldOfView` pair. */
  datatype EyeQuery =
    | EyeParametersQuery(left: EyeParameters, right: EyeParameters)
    | LegacyQuery(translationL: Vec3, translationR: Vec3, fovL: FieldOfView, fovR: FieldOfView)

  /** A VR device; `isHmd` stands for `instanceof HMDVRDevice`. */
  datatype Device = Device(id: nat, isHmd: bool, eyes: EyeQuery)

  /** The four arguments handed to `setupClassicStereoCam`. */
  datatype EyeSetup = EyeSetup(translationL: Vec3, translationR: Vec3, fovL: FieldOfView, fovR: FieldOfView)

  function EyeSetupOf(q: EyeQuery): EyeSetup {
    match q
    case EyeParametersQuery(l, r) =>
      EyeSetup(l.eyeTranslation, r.eyeTranslation, l.recommendedFieldOfView, r.recommendedFieldOfView)
    case LegacyQuery(tl, tr, fl, fr) => EyeSetup(tl, tr, fl, fr)
  }

  const HMD_NOT_AVAILABLE: string := "HMD not available"

  /** The index of the first head-mounted display in `devices`, if any. */
  function FirstHmd(devices: seq<Device>): (r: Option<nat>)
    ensures r.Some? ==> r.value < |devices| && devices[r.value].isHmd
    ensures r.Some? ==> forall j | 0 <= j < r.value :: !devices[j].isHmd
    ensures r.None? <==> forall j | 0 <= j < |devices| :: !devices[j].isHmd
  {
    if devices == [] then None
    else if devices[0].isHmd then Some(0)
    else match FirstHmd(devices[1..])
      case None => None
      case Some(k) => Some(k + 1)
  }

  /** Which of the canvas's vendor-prefixed fullscreen methods exist. */
  datatype CanvasApi = CanvasApi(hasMozRequestFullScreen: bool, hasWebkitRequestFullscreen: bool)

  /** A fullscreen request made on the canvas, naming the display. */
  datatype Request = MozRequestFullScreen(display: nat) | WebkitRequestFullscreen(display: nat)

  /** The request `setFullScreen(wanted)` makes, given the selected display
      and a boolean fullscreen flag: one request exactly when a display is
      selected, the flag differs from `wanted` and the canvas has either
      method; the moz method is preferred over the webkit one. */
  function FullscreenRequest(hmd: Option<Device>, isFullscreen: bool, wanted: bool, canvas: CanvasApi): (r: Option<Request>)
    ensures r.Some? <==>
              hmd.Some? && isFullscreen != wanted
              && (canvas.hasMozRequestFullScreen || canvas.hasWebkitRequestFullscreen)
    ensures r.Some? ==> r.value.display == hmd.value.id
    ensures r.Some? ==> (r.value.MozRequestFullScreen? <==> canvas.hasMozRequestFullScreen)
  {
    if hmd.None? then None
    else if isFullscreen == wanted then None
    else if canvas.hasMozRequestFullScreen then Some(MozRequestFullScreen(hmd.value.id))
    else if canvas.hasWebkitRequestFullscreen then Some(WebkitRequestFullscreen(hmd.value.id))
    else None
  }

  /** The value the fullscreen flag holds in the source: `false` at first,
      then, after a change event, the fullscreen element (an object) or a
      nullish value (`null` or `undefined`). */
  datatype JsFlag = JsBool(b: bool) | JsElement(element: nat) | JsNullish

  /** The flag as the change handler sets it:
      `document.mozFullScreenElement || document.webkitFullscreenElement`. */
  function FlagAfterChangeAsWritten(fullscreenElement: Option<nat>): JsFlag {
    if fullscreenElement.Some? then JsElement(fullscreenElement.value) else JsNullish
  }

  /** `setFullScreen(wanted)` as written: the gate is `isFullscreen === wanted`,
      a strict comparison with a boolean. */
  function FullscreenRequestAsWritten(hmd: Option<Device>, flag: JsFlag, wanted: bool, canvas: CanvasApi): Option<Request> {
    if hmd.None? then None
    else if flag == JsBool(wanted) then None
    else if canvas.hasMozRequestFullScreen then Some(MozRequestFullScreen(hmd.value.id))
    else if canvas.hasWebkitRequestFullscreen then Some(WebkitRequestFullscreen(hmd.value.id))
    else None
  }

  /** As written, once any change event has fired the gate never matches:
      after entering fullscreen, `setFullScreen(true)` requests fullscreen
      again, where the boolean flag makes no call. */
  lemma FullscreenGateAsWritten(hmd: Device, fullscreenElement: Option<nat>, wanted: bool, canvas: CanvasApi)
    requires canvas.hasMozRequestFullScreen || canvas.hasWebkitRequestFullscreen
    ensures FullscreenRequestAsWritten(Some(hmd), FlagAfterChangeAsWritten(fullscreenElement), wanted, canvas).Some?
    ensures fullscreenElement.Some? ==> FullscreenRequest(Some(hmd), fullscreenElement.Some?, true, canvas).None?
  {
  }

  /** The two scenes of a stereo frame: the first two elements of an array
      (`undefined` past its end), or the single scene for both eyes. */
  function EyeScenes(scene: SceneArray): (r: (Option<SceneId>, Option<SceneId>))
    ensures scene.Single? ==> r.0 == r.1 == Some(scene.scene)
    ensures scene.Multiple? ==> r.0 == ElementAt(scene.scenes, 0) && r.1 == ElementAt(scene.scenes, 1)
  {
    match scene
    case Single(s) => (Some(s), Some(s))
    case Multiple(ss) => (ElementAt(ss, 0), ElementAt(ss, 1))
  }

  /** The scene argument of `render`: one scene or an array of scenes. */
  datatype SceneArray = Single(scene: SceneId) | Multiple(scenes: seq<SceneId>)

  /** `scenes[i]` in JavaScript: `undefined` past the end. */
  function ElementAt(scenes: seq<SceneId>, i: nat): (r: Option<SceneId>)
    ensures r.Some? <==> i < |scenes|
    ensures r.Some? ==> r.value == scenes[i]
  {
    if i < |scenes| then Some(scenes[i]) else None
  }

  /** The scene of a mono frame: the first element of an array, or the scene. */
  function MonoScene(scene: SceneArray): (r: Option<SceneId>)
    ensures scene.Single? ==> r == Some(scene.scene)
    ensures scene.Multiple? ==> r == ElementAt(scene.scenes, 0)
  {
    match scene
    case Single(s) => Some(s)
    case Multiple(ss) => ElementAt(ss, 0)
  }

  /** The calls that draw one eye: viewport and scissor set to the same
      rectangle, then a render. */
  function EyePass(r: Rect, scene: Option<SceneId>, camera: CameraRef): seq<Call> {
    [SetViewport(r), SetScissor(r), Render(scene, camera)]
  }

  /** The calls of a stereo frame on a canvas `halfWidth * 2` wide. */
  function StereoTrace(halfWidth: real, height: real, sceneL: Option<SceneId>, sceneR: Option<SceneId>): seq<Call> {
    [EnableScissorTest(true), Clear]
      + EyePass(Rect(0.0, 0.0, halfWidth, height), sceneL, EyeCameraL)
      + EyePass(Rect(halfWidth, 0.0, halfWidth, height), sceneR, EyeCameraR)
      + [EnableScissorTest(false)]
  }

  /** The calls of a mono frame: a single render with the caller's camera. */
  function MonoTrace(scene: SceneArray, camera: Camera): seq<Call> {
    [Render(MonoScene(scene), Caller(camera.id))]
  }

  /** The calls a stereo frame makes as written before it stops: it reads
      the rig's field of view through a property the rig object does not
      have, so `fovToProjection` receives `undefined` and throws a TypeError
      after the scissor test was enabled and the canvas cleared. The rig's
      transforms, read the same way just after, would throw at the same
      point. */
  function StereoTraceAsWritten(): seq<Call> {
    [EnableScissorTest(true), Clear]
  }

  lemma RunEyePass(s: GlState, r: Rect, scene: Option<SceneId>, camera: CameraRef)
    ensures Run(s, EyePass(r, scene, camera)).0 == s.(viewport := r, scissor := r)
    ensures Run(s, EyePass(r, scene, camera)).1 == [Pass(scene, camera, r, r, s.scissorTest)]
  {
    var c0, c1, c2 := SetViewport(r), SetScissor(r), Render(scene, camera);
    var t1: seq<Call> := [c0];
    var t2 := t1 + [c1];
    var t3 := t2 + [c2];
    assert t3 == EyePass(r, scene, camera);
    RunSnoc(s, [], c0);
    assert [] + [c0] == t1;
    var s1 := Run(s, t1).0;
    assert s1 == s.(viewport := r) && Run(s, t1).1 == [];
    RunSnoc(s, t1, c1);
    var s2 := Run(s, t2).0;
    assert s2 == s.(viewport := r, scissor := r) && Run(s, t2).1 == [];
    RunSnoc(s, t2, c2);
  }

  /** A stereo frame draws exactly two passes, both with the scissor test
      on: the left eye's with the left camera into the left half
      `(0, 0, W/2, H)` and the right eye's with the right camera into the
      right half `(W/2, 0, W/2, H)`, scissor equal to viewport each time;
      the halves are adjacent and together span the width `W`. It clears
      once, and leaves the scissor test off and the viewport and scissor on
      the right half. */
  lemma StereoFrame(s: GlState, width: real, height: real, scene: SceneArray)
    ensures var r := Run(s, StereoTrace(width / 2.0, height, EyeScenes(scene).0, EyeScenes(scene).1));
            && |r.1| == 2
            && r.1[0] == Pass(EyeScenes(scene).0, EyeCameraL, Rect(0.0, 0.0, width / 2.0, height), Rect(0.0, 0.0, width / 2.0, height), true)
            && r.1[1] == Pass(EyeScenes(scene).1, EyeCameraR, Rect(width / 2.0, 0.0, width / 2.0, height), Rect(width / 2.0, 0.0, width / 2.0, height), true)
            && r.1[0].viewport.x + r.1[0].viewport.width == r.1[1].viewport.x
            && r.1[1].viewport.x + r.1[1].viewport.width == width
            && !r.0.scissorTest && r.0.clears == s.clears + 1
            && r.0.viewport == Rect(width / 2.0, 0.0, width / 2.0, height)
            && r.0.scissor == Rect(width / 2.0, 0.0, width / 2.0, height)
    ensures scene.Single? ==>
              Run(s, StereoTrace(width / 2.0, height, EyeScenes(scene).0, EyeScenes(scene).1)).1[0].scene
              == Run(s, StereoTrace(width / 2.0, height, EyeScenes(scene).0, EyeScenes(scene).1)).1[1].scene
  {
    var half := width / 2.0;
    assert half + half == width;
    StereoPasses(s, half, height, EyeScenes(scene).0, EyeScenes(scene).1);
  }

  /** The passes of a stereo trace for any half width. */
  lemma StereoPasses(s: GlState, half: real, height: real, sl: Option<SceneId>, sr: Option<SceneId>)
    ensures var r := Run(s, StereoTrace(half, height, sl, sr));
            && r.1 == [Pass(sl, EyeCameraL, Rect(0.0, 0.0, half, height), Rect(0.0, 0.0, half, height), true),
                       Pass(sr, EyeCameraR, Rect(half, 0.0, half, height), Rect(half, 0.0, half, height), true)]
            && !r.0.scissorTest && r.0.clears == s.clears + 1
            && r.0.viewport == Rect(half, 0.0, half, height) && r.0.scissor == Rect(half, 0.0, half, height)
  {
    var left, right := Rect(0.0, 0.0, half, height), Rect(half, 0.0, half, height);
    var start := [EnableScissorTest(true), Clear];
    var a := start + EyePass(left, sl, EyeCameraL);
    var b := a + EyePass(right, sr, EyeCameraR);
    assert StereoTrace(half, height, sl, sr) == b + [EnableScissorTest(false)];
    var s0 := Run(s, start).0;
    RunSnoc(s, [], EnableScissorTest(true));
    assert [] + [EnableScissorTest(true)] == [EnableScissorTest(true)];
    RunSnoc(s, [EnableScissorTest(true)], Clear);
    assert [EnableScissorTest(true)] + [Clear] == start;
    RunAppend(s, start, EyePass(left, sl, EyeCameraL));
    RunEyePass(s0, left, sl, EyeCameraL);
    var s1 := s0.(viewport := left, scissor := left);
    RunAppend(s, a, EyePass(right, sr, EyeCameraR));
    RunEyePass(s1, right, sr, EyeCameraR);
    RunSnoc(s, b, EnableScissorTest(false));
  }

  /** As written, a stereo frame draws nothing and leaves the scissor test
      enabled, where the intended frame draws both eyes and disables it. */
  lemma StereoFrameAsWritten(s: GlState, width: real, height: real, scene: SceneArray)
    ensures var r := Run(s, StereoTraceAsWritten());
            r.1 == [] && r.0.scissorTest
    ensures !Run(s, StereoTrace(width / 2.0, height, EyeScenes(scene).0, EyeScenes(scene).1)).0.scissorTest
  {
    var t := StereoTraceAsWritten();
    assert t[..1] == [EnableScissorTest(true)];
    StereoFrame(s, width, height, scene);
  }

  /** A mono frame draws exactly one pass, with the caller's camera and the
      first scene of an array (or the scene), and changes no renderer state:
      no viewport, scissor or clear. */
  lemma MonoFrame(s: GlState, scene: SceneArray, camera: Camera)
    ensures Run(s, MonoTrace(scene, camera)).0 == s
    ensures Run(s, MonoTrace(scene, camera)).1
            == [Pass(MonoScene(scene), Caller(camera.id), s.viewport, s.scissor, s.scissorTest)]
  {
    assert MonoTrace(scene, camera)[..0] == [];
  }

  /** The arguments the per-eye projection matrix is built from
      (`fovToProjection(fov, true, near, far)`). */
  datatype ProjectionSource = ProjectionSource(fov: FieldOfView, rightHanded: bool, zNear: real, zFar: real)

  datatype Camera = Camera(id: nat, near: real, far: real)

  class VRViewerEffect {
    const renderer: RecordingRenderer
    const rig: ViewerCameraRig
    const hasOnError: bool
    const canvas: CanvasApi
    var vrHmd: Option<Device>
    var isFullscreen: bool
    var projectionL: Option<ProjectionSource>
    var projectionR: Option<ProjectionSource>

    /** The rig is valid, and a selected display has set up its eyes. */
    ghost predicate Valid()
      reads this, rig
    {
      && rig.Valid()
      && (vrHmd.Some? ==> rig.eyeFovL.Some? && rig.eyeFovR.Some?)
    }

    /** Creates the rig on a fresh top transform; no display is selected
        yet and the fullscreen flag is off. */
    constructor (renderer: RecordingRenderer, hasOnError: bool, canvas: CanvasApi, topTransform: NodeId)
      ensures Valid() && fresh(rig)
      ensures this.renderer == renderer && this.hasOnError == hasOnError && this.canvas == canvas
      ensures rig.topTransform == topTransform && rig.availableModes == [MONO] && rig.scale == 1.0
      ensures rig.eyeFovL.None? && rig.eyeFovR.None? && rig.primaryCamera.None?
      ensures vrHmd.None? && !isFullscreen && projectionL.None? && projectionR.None?
    {
      this.renderer := renderer;
      this.hasOnError := hasOnError;
      this.canvas := canvas;
      rig := new ViewerCameraRig(topTransform);
      vrHmd := None;
      isFullscreen := false;
      projectionL, projectionR := None, None;
    }

    /** Selects the first head-mounted display in `devices` and sets the rig
        up from its eye parameters; the rest are ignored. Returns the message
        passed to `onError`: "HMD not available" when no display is selected
        and an error callback was given, nothing otherwise. */
    method GotVRDevices(devices: seq<Device>) returns (reported: Option<string>)
      requires Valid()
      modifies this`vrHmd, rig
      ensures Valid()
      ensures FirstHmd(devices).Some? ==>
                && vrHmd == Some(devices[FirstHmd(devices).value])
                && var setup := EyeSetupOf(vrHmd.value.eyes);
                   && rig.eyeTranslationL == Some(setup.translationL) && rig.eyeTranslationR == Some(setup.translationR)
                   && rig.eyeFovL == Some(setup.fovL) && rig.eyeFovR == Some(setup.fovR)
                   && rig.availableModes == old(rig.availableModes) + [CLASSIC_STEREO]
      ensures rig.topTransform == old(rig.topTransform) && rig.scale == old(rig.scale)
      ensures rig.primaryCamera == old(rig.primaryCamera)
      ensures FirstHmd(devices).None? ==> vrHmd == old(vrHmd) && unchanged(rig)
      ensures reported == if vrHmd.None? && hasOnError then Some(HMD_NOT_AVAILABLE) else None
    {
      ghost var found: Option<nat> := None;
      var i := 0;
      while i < |devices|
        invariant 0 <= i <= |devices|
        invariant forall j | 0 <= j < i :: !devices[j].isHmd
        invariant vrHmd == old(vrHmd) && unchanged(rig)
        invariant found.None? && Valid()
      {
        if devices[i].isHmd {
          vrHmd := Some(devices[i]);
          var setup := EyeSetupOf(devices[i].eyes);
          rig.SetupClassicStereoCam(setup.translationL, setup.translationR, setup.fovL, setup.fovR);
          found := Some(i);
          break;
        }
        i := i + 1;
      }
      if found.None? {
        assert FirstHmd(devices).None?;
      } else {
        assert FirstHmd(devices) == found;
      }
      reported := None;
      if vrHmd.None? {
        if hasOnError {
          reported := Some(HMD_NOT_AVAILABLE);
        }
      }
    }

    /** Passes the size on to the renderer. */
    method SetSize(width: real, height: real)
      modifies renderer
      ensures renderer.width == width && renderer.height == height
      ensures renderer.calls == old(renderer.calls) + [Call.SetSize(width, height)]
    {
      renderer.SetSize(width, height);
    }

    /** A fullscreen change event: the flag records whether an element is
        now fullscreen. */
    method OnFullscreenChange(fullscreenElement: Option<nat>)
      modifies this`isFullscreen
      ensures isFullscreen == fullscreenElement.Some?
    {
      isFullscreen := fullscreenElement.Some?;
    }

    /** The platform call `setFullScreen(wanted)` makes, if any. */
    method SetFullScreen(wanted: bool) returns (request: Option<Request>)
      ensures request == FullscreenRequest(vrHmd, isFullscreen, wanted, canvas)
    {
      if vrHmd.None? { return None; }
      if isFullscreen == wanted { return None; }
      if canvas.hasMozRequestFullScreen {
        request := Some(MozRequestFullScreen(vrHmd.value.id));
      } else if canvas.hasWebkitRequestFullscreen {
        request := Some(WebkitRequestFullscreen(vrHmd.value.id));
      } else {
        request := None;
      }
    }

    /** Draws one eye into the rectangle `(x, 0, width, height)`. */
    method RenderEye(x: real, width: real, height: real, scene: Option<SceneId>, camera: CameraRef)
      modifies renderer`calls
      ensures renderer.calls == old(renderer.calls) + EyePass(Rect(x, 0.0, width, height), scene, camera)
    {
      renderer.SetViewport(x, 0.0, width, height);
      renderer.SetScissor(x, 0.0, width, height);
      renderer.Render(scene, camera);
    }

    /** The renderer calls of a stereo frame: scissor test on, clear, the
        left eye into the left half, the right eye into the right half,
        scissor test off. */
    method RenderStereo(halfWidth: real, height: real, sceneL: Option<SceneId>, sceneR: Option<SceneId>)
      modifies renderer`calls
      ensures renderer.calls == old(renderer.calls) + StereoTrace(halfWidth, height, sceneL, sceneR)
    {
      renderer.EnableScissorTest(true);
      renderer.Clear();
      ghost var started := renderer.calls;
      assert started == old(renderer.calls) + [EnableScissorTest(true), Clear];
      // render left eye
      RenderEye(0.0, halfWidth, height, sceneL, EyeCameraL);
      // render right eye
      RenderEye(halfWidth, halfWidth, height, sceneR, EyeCameraR);
      renderer.EnableScissorTest(false);
      assert renderer.calls == started
        + EyePass(Rect(0.0, 0.0, halfWidth, height), sceneL, EyeCameraL)
        + EyePass(Rect(halfWidth, 0.0, halfWidth, height), sceneR, EyeCameraR)
        + [EnableScissorTest(false)];
    }

    /** Renders one frame. With a display selected: scissor test on, clear,
        build both eye projections from the rig's fields of view and the
        camera's near and far planes, draw the left eye into the left half
        and the right eye into the right half, scissor test off. Without
        one: a single render with the caller's camera. */
    method Render(scene: SceneArray, camera: Camera)
      requires Valid()
      modifies renderer`calls, this`projectionL, this`projectionR
      ensures Valid()
      ensures vrHmd.Some? ==>
                && renderer.calls == old(renderer.calls)
                     + StereoTrace(renderer.width / 2.0, renderer.height, EyeScenes(scene).0, EyeScenes(scene).1)
                && projectionL == Some(ProjectionSource(rig.eyeFovL.value, true, camera.near, camera.far))
                && projectionR == Some(ProjectionSource(rig.eyeFovR.value, true, camera.near, camera.far))
      ensures vrHmd.None? ==>
                renderer.calls == old(renderer.calls) + MonoTrace(scene, camera)
                && projectionL == old(projectionL) && projectionR == old(projectionR)
    {
      if vrHmd.Some? {
        var sceneL, sceneR;
        if scene.Multiple? {
          sceneL, sceneR := ElementAt(scene.scenes, 0), ElementAt(scene.scenes, 1);
        } else {
          sceneL, sceneR := Some(scene.scene), Some(scene.scene);
        }
        assert (sceneL, sceneR) == EyeScenes(scene);
        var width, height := renderer.GetSize();
        width := width / 2.0;

        projectionL := Some(ProjectionSource(rig.eyeFovL.value, true, camera.near, camera.far));
        projectionR := Some(ProjectionSource(rig.eyeFovR.value, true, camera.near, camera.far));
        RenderStereo(width, height, sceneL, sceneR);
        return;
      }

      // regular render mode without a display
      var monoScene := if scene.Multiple? then ElementAt(scene.scenes, 0) else Some(scene.scene);
      renderer.Render(monoScene, Caller(camera.id));
    }
  }
}
