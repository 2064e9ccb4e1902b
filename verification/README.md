# panofoo stereo viewer and canvas text box, in Dafny

This project models two pieces of panofoo, a WebVR panorama viewer.

**The stereo effect** (`webvr-test/js/VRViewerEffect.js`, `THREE.VRViewerEffect`):

- The asymmetric-frustum projection math. `fovToNDCScaleOffset` and `fovPortToProjection` turn four half-angle tangents into an NDC scale/offset pair and a 4x4 matrix. The matrix is filled row by row and then transposed in place in three.js's column-major array (module `Projection`).
- The camera rig `THREE.VRViewerCameraRig`, as a class whose fields the setup methods update (module `CameraRig`).
- The effect itself, as a class (module `ViewerEffect`):
  - device selection: the first head-mounted display wins, and a missing one is reported;
  - fullscreen gating;
  - `setSize`;
  - the per-frame `render`: without a display it draws one plain pass; with one, the corrected frame draws two eye passes into the two halves of the canvas inside a scissor test (as written, that branch throws at line 272, and would throw again at line 276 were that fixed; see Findings).

The WebGL renderer is a `RecordingRenderer` (module `Renderer`) that keeps the trace of calls made on it. `Run` interprets a trace into the passes drawn, together with the viewport, scissor rectangle and scissor-test flag in force for each. As in three.js, `setSize` also resets the viewport to the whole canvas.

**The canvas text box** (`src/js/VRCanvasFactory.js`):

- `wrapText` is a loop, proved against the greedy line-breaking rule (module `TextWrap`). The text width measure is a parameter, and the greedy wrapping of a word sequence is shown to be unique.
- The text box's option defaults, canvas size, border geometry and sphere field of view (module `CanvasTextBox`).
- The spinner and the factory.
- The lazily created factory singleton.

All numbers are unbounded reals: tangents, sizes, widths and fields of view.

Two behaviours of the fullscreen gate are worth stating up front:

- **Fullscreen off.** `setFullScreen(false)` never exits fullscreen: when the flag differs from the argument it makes the same request call as `setFullScreen(true)` (webvr-test/js/VRViewerEffect.js:150-165).
- **Two calls in a row.** Two `setFullScreen(true)` calls in a row both make a request. The flag changes only when the platform's change event fires, and the value set at line 146 is never a boolean (see Findings).

The stereo frame only switches the scissor test off at its end (webvr-test/js/VRViewerEffect.js:291); it never restores the full-canvas viewport, so the viewport and scissor stay on the right half after the frame.

## Model

| member | source | states |
|---|---|---|
| Projection.FovToNdcScaleOffset | webvr-test/js/VRViewerEffect.js:169-177 | both scales are positive; the X map sends rightTan to +1 and -leftTan to -1; the Y map (offset negated) sends upTan to +1 and -downTan to -1; a symmetric field of view has zero offsets |
| Projection.ResolveParams | webvr-test/js/VRViewerEffect.js:181-183 | an omitted argument defaults to right-handed, near plane 0.01 and far plane 10000; a given one is used as is |
| Projection.HandednessScale | webvr-test/js/VRViewerEffect.js:185 | the handedness scale squares to 1 and is negative exactly when right-handed |
| Projection.SetRow | webvr-test/js/VRViewerEffect.js:195-198 | writing one row replaces exactly the four elements `row*4 .. row*4+3` of the array |
| Projection.WriteProjectionRows | webvr-test/js/VRViewerEffect.js:194-218 | after the sixteen writes, the array holds the projection matrix row by row, whatever it held before |
| Projection.Transpose | webvr-test/js/VRViewerEffect.js:220 | the in-place transpose leaves the transposed element order |
| Projection.SixSwapsTranspose | webvr-test/js/VRViewerEffect.js:220 | exchanging the six pairs across the diagonal transposes a 4x4 array |
| Projection.TransposedRowMajor | webvr-test/js/VRViewerEffect.js:194-220 | transposing the row-by-row layout gives the column-by-column layout |
| Projection.ColumnMajorEntries | webvr-test/js/VRViewerEffect.js:188-222 | read through three.js's column-major layout, the returned elements give back every entry of the rows written |
| Projection.FovPortToProjection | webvr-test/js/VRViewerEffect.js:179-222 | returns a new 16-element matrix whose column-major elements are the projection matrix of the resolved arguments |
| Projection.ProjectViewPoint | webvr-test/js/VRViewerEffect.js:194-218 | a point at distance d in front of the camera gets clip w = d; clip x and y are d times the NDC maps of its tangents; clip z satisfies `z*(n-f) = f*(n-d)` |
| Projection.FrustumEdgesMapToUnit | webvr-test/js/VRViewerEffect.js:194-218 | the right, left, top and bottom frustum edges map to clip x = +w, x = -w, y = +w and y = -w, at every distance and either handedness |
| Projection.DepthRange | webvr-test/js/VRViewerEffect.js:208-218 | the near plane maps to clip z = 0 and the far plane to clip z = w |
| Projection.SymmetricHasNoOffset | webvr-test/js/VRViewerEffect.js:194-206 | with up = down and left = right, the matrix has no X or Y offset term |
| CameraRig.ViewerCameraRig.constructor | webvr-test/js/VRViewerEffect.js:63-70 | the rig starts with modes ["mono"], scale 1.0, the given parent as top transform and no eye or pano setup; the rig invariant holds |
| CameraRig.ViewerCameraRig.SetupClassicStereoCam | webvr-test/js/VRViewerEffect.js:34-56 | stores all four eye arguments; hangs each eye transform off the top transform, moved along X by the eye's x translation times the scale; appends "classicStereo"; keeps the rig invariant |
| CameraRig.ViewerCameraRig.SetupPanoStereoCam | webvr-test/js/VRViewerEffect.js:58-61 | stores the primary camera and appends "panoStereo", changing nothing else; keeps the rig invariant |
| ViewerEffect.FirstHmd | webvr-test/js/VRViewerEffect.js:81-109 | the index found is a display and no earlier device is one; there is none exactly when no device is a display |
| ViewerEffect.VRViewerEffect.GotVRDevices | webvr-test/js/VRViewerEffect.js:79-119 | selects the first display and sets the rig up from its eye parameters (either query style); the rig's top transform, scale and primary camera are kept; with none, neither the selection nor the rig changes; "HMD not available" is reported exactly when no display is selected and an error callback exists |
| ViewerEffect.VRViewerEffect.constructor | webvr-test/js/VRViewerEffect.js:121-125 | a fresh rig on the top transform with modes ["mono"], scale 1.0 and no eye or pano setup; no display selected; fullscreen flag off |
| ViewerEffect.VRViewerEffect.SetSize | webvr-test/js/VRViewerEffect.js:131-135 | the renderer gets the size and records exactly one setSize call |
| ViewerEffect.VRViewerEffect.OnFullscreenChange | webvr-test/js/VRViewerEffect.js:144-148 | corrected: after a change event the flag is true exactly when an element is fullscreen |
| ViewerEffect.FullscreenRequest | webvr-test/js/VRViewerEffect.js:150-165 | a request is made exactly when a display is selected, the flag differs from the argument and the canvas has either method; it names the selected display; moz is preferred over webkit |
| ViewerEffect.VRViewerEffect.SetFullScreen | webvr-test/js/VRViewerEffect.js:150-165 | the request made is the one `FullscreenRequest` gives for the effect's display, flag and canvas |
| ViewerEffect.FullscreenGateAsWritten | webvr-test/js/VRViewerEffect.js:144-153 | as written, after any change event the gate never matches, so a request is made; with a boolean flag, `setFullScreen(true)` while fullscreen makes none |
| ViewerEffect.EyeScenes | webvr-test/js/VRViewerEffect.js:250-262 | an array gives its elements 0 and 1 (undefined past the end); a single scene is used for both eyes |
| ViewerEffect.ElementAt | webvr-test/js/VRViewerEffect.js:254-255 | an array element is defined exactly when the index is in range, and it is the element there |
| ViewerEffect.MonoScene | webvr-test/js/VRViewerEffect.js:299 | an array gives its first element, a single scene itself |
| ViewerEffect.RunEyePass | webvr-test/js/VRViewerEffect.js:282-289 | one eye draws one pass whose viewport and scissor are both the eye's rectangle, and leaves them set to it |
| ViewerEffect.StereoPasses | webvr-test/js/VRViewerEffect.js:267-291 | a stereo frame draws exactly the left pass on (0, 0, W/2, H) and the right pass on (W/2, 0, W/2, H), both scissored; it clears once and ends with the scissor test off and the viewport and scissor on the right half |
| ViewerEffect.StereoFrame | webvr-test/js/VRViewerEffect.js:248-291 | exactly two passes with the eye cameras; the left half ends where the right half starts and together they cover the width; scissor test off at the end, viewport and scissor left on the right half; one clear; one scene for both eyes when a single scene is given |
| ViewerEffect.StereoFrameAsWritten | webvr-test/js/VRViewerEffect.js:267-273 | as written, a stereo frame stops after enabling the scissor test and clearing: nothing is drawn and the scissor test stays on |
| ViewerEffect.MonoFrame | webvr-test/js/VRViewerEffect.js:297-301 | a frame without a display draws exactly one pass with the caller's camera and the first or only scene, and changes no renderer state |
| ViewerEffect.VRViewerEffect.RenderEye | webvr-test/js/VRViewerEffect.js:282-284 | records the viewport, scissor and render calls of one eye |
| ViewerEffect.VRViewerEffect.RenderStereo | webvr-test/js/VRViewerEffect.js:267-291 | records exactly the calls of a stereo frame: scissor on, clear, left eye, right eye, scissor off |
| ViewerEffect.VRViewerEffect.Render | webvr-test/js/VRViewerEffect.js:246-303 | corrected: with a display, the stereo trace on half the renderer width, and both eye projections built from the rig's fields of view and the camera's near and far planes; without one: the single mono render, projections unchanged |
| TextWrap.Split | src/js/VRCanvasFactory.js:72 | `split(' ')` gives at least one piece, no piece holds a space, and joining the pieces with spaces gives back the text |
| TextWrap.SplitJoinSpaces | src/js/VRCanvasFactory.js:72 | splitting words without spaces, once joined with spaces, gives back the words |
| TextWrap.ConcatLines | src/js/VRCanvasFactory.js:79-95 | the lines of a grouping, concatenated, are its words each followed by one space |
| TextWrap.GreedyWrapUnique | src/js/VRCanvasFactory.js:78-90 | there is only one grouping of a word sequence that follows the break rule |
| TextWrap.FirstGroupsAgree | src/js/VRCanvasFactory.js:78-90 | two groupings that follow the break rule have the same first line |
| TextWrap.FirstBreakOverflows | src/js/VRCanvasFactory.js:82 | the line tried with the first word after the first line was too wide |
| TextWrap.FirstGroupFits | src/js/VRCanvasFactory.js:88-89 | every line tried while the first line was filled fitted |
| TextWrap.MaxOverflowIsMax | src/js/VRCanvasFactory.js:83-84 | the running maximum is never negative, is at least every overflowing test width, and is 0 or one of them |
| TextWrap.WrapWidthIsMax | src/js/VRCanvasFactory.js:75-94 | the width returned is never negative, is at least the last test width and every overflowing test width, and is 0 or one of them |
| TextWrap.FitStep | src/js/VRCanvasFactory.js:88-90 | a word that fits extends the current line, and the wrapping state stays greedy |
| TextWrap.BreakStep | src/js/VRCanvasFactory.js:82-87 | a word that overflows (after the first) pushes the line, starts a new one and raises the maximum to the test width |
| TextWrap.FirstStep | src/js/VRCanvasFactory.js:78-90 | the first word always goes on the first line |
| TextWrap.WrapWords | src/js/VRCanvasFactory.js:77-91 | after the loop, the pushed lines, the current line, the maximum and the last test width are those of the greedy wrapping of all the words |
| TextWrap.WrapResult | src/js/VRCanvasFactory.js:93-97 | pushing the last line completes the greedy wrapping, and the width returned is its wrap width |
| TextWrap.WrapProperties | src/js/VRCanvasFactory.js:93-97 | the lines of any greedy wrapping are at least one; they concatenate to the words each followed by a space; each ends with a space; the first starts with the first word |
| TextWrap.WrapText | src/js/VRCanvasFactory.js:71-98 | returns the lines and width of the (unique) greedy wrapping of the words; at least one line; no word lost; every line ends with a space; the first word is never moved off the first line |
| CanvasTextBox.ResolveOptions | src/js/VRCanvasFactory.js:107-120 | each absent key takes its default (Arial, 12, 1, white border, black background at 0.7 alpha) and each present key is used as given |
| CanvasTextBox.ResolveOptionsGiven | src/js/VRCanvasFactory.js:107-120 | options that give every key resolve to those values; empty options resolve to the default style |
| CanvasTextBox.BorderFillsCanvas | src/js/VRCanvasFactory.js:133-144 | the rounded border, stroked with the border thickness, reaches exactly to the four edges of the canvas |
| CanvasTextBox.BaselinesInsideBox | src/js/VRCanvasFactory.js:134-155 | baselines are one line height apart, and every line's baseline lies above the bottom border |
| CanvasTextBox.SphereFovOf | src/js/VRCanvasFactory.js:159-161 | the horizontal field of view is kept; the vertical one is finite exactly when the canvas width is not 0, and vertical * width = height * horizontal |
| CanvasTextBox.SphereFovAspect | src/js/VRCanvasFactory.js:159-161 | the vertical-to-horizontal field of view ratio equals the canvas height-to-width ratio |
| CanvasTextBox.CanvasSpinner.Init | src/js/VRCanvasFactory.js:55-57 | the spinner gets a fresh 2048 x 2048 canvas |
| CanvasTextBox.TextBox.InitBase | src/js/VRCanvasFactory.js:30-37 | a fresh 2048 x 2048 canvas whose new 2D context has the default font (no font set); the wrapped lines and text width are kept |
| CanvasTextBox.TextBox.Init | src/js/VRCanvasFactory.js:103-162 | the message is greedily wrapped in the bold font at 1024 wide; the canvas is the text width plus two borders by one line height per line plus two borders; the font ends regular; the sphere field of view follows the canvas aspect |
| CanvasTextBox.CanvasFactoryCore.CreateCanvasSpinner | src/js/VRCanvasFactory.js:169-171 | a new spinner with no canvas yet |
| CanvasTextBox.CanvasFactoryCore.CreateCanvasTextBox | src/js/VRCanvasFactory.js:172-174 | a new text box with no canvas, font or field of view yet |
| CanvasTextBox.CanvasFactory.GetInstance | src/js/VRCanvasFactory.js:186-191 | the first call creates a new factory core; every call returns the stored one |
| CanvasTextBox.GetInstanceTwice | src/js/VRCanvasFactory.js:177-193 | two calls return the same object |

## Left out

- CanvasTextBox.TextBox.InitBase: `VRTextureDescription` is not part of this model; `sphereFov` None stands for the new texture description's field of view, which its constructor sets and this model does not know.
- Degrees to tangents (`fovToProjection`, webvr-test/js/VRViewerEffect.js:226-239) uses `Math.tan` and is floating point. Tangents are taken as given positive reals. The eye projections record the field of view and planes they are built from (`ProjectionSource`).
- Scene-graph calls (`THREE.Object3D`, `add`, `matrixWorld.decompose`, `updateMatrixWorld`, `matrixWorld.copy`) are three.js operations. Nodes are identities, and an eye transform records only its parent and its X offset.
  - The model leaves open whether the eye camera matrices are right.
  - Lines 276-278 copy matrices from `_topTransform`, `_transformCameraL` and `_transformCameraR`. Those are closure variables of the rig, not properties, so as written none of these copies takes place (see Findings).
- Asynchronous device discovery (`navigator.getVRDevices().then`) is a promise. `GotVRDevices` runs synchronously over a device sequence. When `navigator.getVRDevices` is absent, no rig is created and line 129 throws. This path is not modelled: the constructor always creates the rig.
- `instanceof HMDVRDevice` is a boolean tag on each device. Whether a device has `getEyeParameters` is the `EyeQuery` case it carries.
- A display with neither `getEyeParameters` nor the legacy `getEyeTranslation`/`getRecommendedEyeFieldOfView` pair makes line 101 call `undefined` and throw. `EyeQuery` has only the two cases, so such a device is not modelled.
- DOM events and vendor-prefix detection: the fullscreen-change event is the `OnFullscreenChange` method, called with the element the document reports. The event name chosen at line 142 is not modelled.
- Line 129 (`vrCameraRig.scale = 1`) sets a property the rig never reads. It leaves the rig's scale at 1.0, which is what the model keeps.
- Projection.FovPortToProjection: requires the resolved near and far planes to differ. The source does not check this, and JavaScript would produce infinite or NaN entries.
- The per-frame `camera.parent === undefined` update (line 270) is a scene-graph call and is left out.
- Canvas drawing and textures are 2D-canvas and WebGL side effects and are not modelled:
  - `roundRect`;
  - the spinner's `update` and its `Math.cos`;
  - `fillText` and the `fillStyle`/`strokeStyle`/`lineWidth` strings;
  - `twgl.createTexture`/`deleteTexture` (`updateBase`);
  - `teardown`.

  The geometry passed to `roundRect` and `fillText` is modelled (`BorderBox`, `Baseline`); the drawing loop is not.
- `measureText` is a width function parameter, and under the text box it depends on the font.
- Option values of a type other than the expected one (a string font size, say) are not modelled.
- CanvasTextBox.TextBox.Init: the browser truncates `canvas.width` and `canvas.height` to integers, and line 159 reads the truncated values back. The model keeps the exact reals, so its field of view is the untruncated ratio.
- ViewerEffect.VRViewerEffect.Render: the corrected frame assumes that lines 276-278 read the rig's top and eye transforms and copy their `matrixWorld`, with line 278 writing `cameraR`. Those matrix copies are scene-graph operations (see above) and do not appear in the call trace.
- The module export at line 195 is one `GetInstance` call on the factory.

## Findings

| source | as written | input that shows it | evidently intended | confidence | as-written member | corrected member |
|---|---|---|---|---|---|---|
| webvr-test/js/VRViewerEffect.js:272-278 | `render` reads `vrCameraRig._eyeFOVL`, `_eyeFOVR` (lines 272-273), `_topTransform`, `_transformCameraL` and `_transformCameraR` (lines 276-278). All five are closure variables of the rig, not properties. The first throw is in `fovToProjection` on `undefined`; with lines 272-273 fixed, line 276 would throw on `undefined.matrixWorld`. Either way the throw comes after `enableScissorTest(true)` and `clear()` | any `render` call once a display has been selected | project each eye from the rig's recorded field of view, copy the camera's world matrix into the rig and the eye transforms into `cameraL` and `cameraR`, and draw both eyes | high; not executed | ViewerEffect.StereoFrameAsWritten | ViewerEffect.VRViewerEffect.Render |
| webvr-test/js/VRViewerEffect.js:146 | the change handler stores whichever fullscreen element the document reports (an element or `null`), which `isFullscreen === boolean` at line 153 never equals | enter fullscreen, then call `setFullScreen(true)`: a second request is made | keep a boolean flag, so that a call asking for the current state does nothing | high; not executed | ViewerEffect.FullscreenGateAsWritten | ViewerEffect.VRViewerEffect.OnFullscreenChange |
