/** The stereo camera rig of VRViewerEffect.js (`THREE.VRViewerCameraRig`):
    a top transform, the eye parameters a head-mounted display reports, two
    eye transforms parented to the top transform, and the list of viewing
    modes the rig has been set up for. Scene-graph nodes (`THREE.Object3D`)
    are represented by their identity only. */
module CameraRig {
  import opened Wrappers

  datatype Vec3 = Vec3(x: real, y: real, z: real)

  /** A field of view in degrees, as the WebVR `VRFieldOfView` record. */
  datatype FieldOfView = FieldOfView(upDegrees: real, downDegrees: real, leftDegrees: real, rightDegrees: real)

  /** The identity of a scene-graph node. */
  type NodeId = nat

  /** An eye transform: the node it is attached to and the distance it is
      moved along its X axis (`translateX`). */
  datatype EyeTransform = EyeTransform(parent: NodeId, offsetX: real)

  /** How far an eye transform is moved along X: the eye's X translation
      times the rig scale. */
  function EyeOffset(translation: Vec3, scale: real): real {
    translation.x * scale
  }

  const MONO: string := "mono"
  const CLASSIC_STEREO: string := "classicStereo"
  const PANO_STEREO: string := "panoStereo"

  class ViewerCameraRig {
    var topTransform: NodeId
    var availableModes: seq<string>
    var scale: real
    var eyeTranslationL: Option<Vec3>
    var eyeTranslationR: Option<Vec3>
    var eyeFovL: Option<FieldOfView>
    var eyeFovR: Option<FieldOfView>
    var transformCameraL: Option<EyeTransform>
    var transformCameraR: Option<EyeTransform>
    var primaryCamera: Option<NodeId>

    /** The rig's invariant: "mono" is always the first mode; the eye
        parameters and transforms are present exactly when the rig has been
        set up for classic stereo, and the primary camera exactly when it has
        been set up for pano stereo; each eye transform hangs off the top
        transform, moved by its eye's X translation times the rig scale. */
    ghost predicate Valid()
      reads this
    {
      && |availableModes| >= 1 && availableModes[0] == MONO
      && (forall i | 0 <= i < |availableModes| :: availableModes[i] in {MONO, CLASSIC_STEREO, PANO_STEREO})
      && (CLASSIC_STEREO in availableModes <==> eyeFovL.Some?)
      && eyeFovL.Some? == eyeFovR.Some? == eyeTranslationL.Some? == eyeTranslationR.Some?
      && eyeTranslationL.Some? == transformCameraL.Some? == transformCameraR.Some?
      && (PANO_STEREO in availableModes <==> primaryCamera.Some?)
      && (transformCameraL.Some? ==>
            transformCameraL.value == EyeTransform(topTransform, EyeOffset(eyeTranslationL.value, scale)))
      && (transformCameraR.Some? ==>
            transformCameraR.value == EyeTransform(topTransform, EyeOffset(eyeTranslationR.value, scale)))
    }

    /** `init` pushes "mono" and sets the scale to 1.0; the top transform it
        creates is then replaced by the parent transform given. */
    constructor (parentTransform: NodeId)
      ensures Valid()
      ensures availableModes == [MONO] && scale == 1.0 && topTransform == parentTransform
      ensures eyeTranslationL.None? && eyeTranslationR.None? && eyeFovL.None? && eyeFovR.None?
      ensures transformCameraL.None? && transformCameraR.None? && primaryCamera.None?
    {
      availableModes := [MONO];
      scale := 1.0;
      topTransform := parentTransform;
      eyeTranslationL, eyeTranslationR := None, None;
      eyeFovL, eyeFovR := None, None;
      transformCameraL, transformCameraR := None, None;
      primaryCamera := None;
    }

    /** Stores the four eye arguments, attaches the two eye transforms to the
        top transform, moves each by its eye's X translation times the scale,
        and appends "classicStereo" to the modes. */
    method SetupClassicStereoCam(translationL: Vec3, translationR: Vec3, fovL: FieldOfView, fovR: FieldOfView)
      requires Valid()
      modifies this
      ensures Valid()
      ensures eyeTranslationL == Some(translationL) && eyeTranslationR == Some(translationR)
      ensures eyeFovL == Some(fovL) && eyeFovR == Some(fovR)
      ensures transformCameraL == Some(EyeTransform(topTransform, EyeOffset(translationL, scale)))
      ensures transformCameraR == Some(EyeTransform(topTransform, EyeOffset(translationR, scale)))
      ensures availableModes == old(availableModes) + [CLASSIC_STEREO]
      ensures topTransform == old(topTransform) && scale == old(scale) && primaryCamera == old(primaryCamera)
    {
      eyeTranslationL := Some(translationL);
      eyeTranslationR := Some(translationR);
      eyeFovL := Some(fovL);
      eyeFovR := Some(fovR);
      transformCameraL := Some(EyeTransform(topTransform, EyeOffset(translationL, scale)));
      transformCameraR := Some(EyeTransform(topTransform, EyeOffset(translationR, scale)));
      availableModes := availableModes + [CLASSIC_STEREO];
    }

    /** Stores the primary camera and appends "panoStereo" to the modes. */
    method SetupPanoStereoCam(camera: NodeId)
      requires Valid()
      modifies this
      ensures Valid()
      ensures primaryCamera == Some(camera)
      ensures availableModes == old(availableModes) + [PANO_STEREO]
      ensures topTransform == old(topTransform) && scale == old(scale)
      ensures eyeTranslationL == old(eyeTranslationL) && eyeTranslationR == old(eyeTranslationR)
      ensures eyeFovL == old(eyeFovL) && eyeFovR == old(eyeFovR)
      ensures transformCameraL == old(transformCameraL) && transformCameraR == old(transformCameraR)
    {
      primaryCamera := Some(camera);
      availableModes := availableModes + [PANO_STEREO];
    }
  }
}
