/**
 * The application's render options (apiary/src/app.rs, `RenderOptions`),
 * their two presets, and the per-frame copy of them into the options the
 * basic render pipeline and the mesh feature read.
 */
module AppOptions {

  /**
   * The pipeline's tonemapper choice. Only the two values the presets use are
   * named; the others are told apart by their index.
   */
  datatype TonemapperType = None | AutoExposureOld | OtherTonemapper(index: nat)

  datatype RenderOptions = RenderOptions(
    enableMsaa: bool,
    enableHdr: bool,
    enableBloom: bool,
    enableTextures: bool,
    enableLighting: bool,
    showSurfaces: bool,
    showWireframes: bool,
    showDebug3d: bool,
    showText: bool,
    showSkybox: bool,
    showFeatureToggles: bool,
    showShadows: bool,
    blurPassCount: nat,
    tonemapperType: TonemapperType,
    enableVisibilityUpdate: bool)

  /** The basic pipeline's options (`BasicPipelineRenderOptions`). */
  datatype BasicPipelineRenderOptions = BasicPipelineRenderOptions(
    enableMsaa: bool,
    enableHdr: bool,
    enableBloom: bool,
    enableTextures: bool,
    showSurfaces: bool,
    showWireframes: bool,
    showDebug3d: bool,
    showText: bool,
    showSkybox: bool,
    showFeatureToggles: bool,
    blurPassCount: nat,
    tonemapperType: TonemapperType,
    enableVisibilityUpdate: bool)

  /** The mesh feature's options (`MeshBasicRenderOptions`). */
  datatype MeshBasicRenderOptions = MeshBasicRenderOptions(
    showSurfaces: bool,
    showShadows: bool,
    enableLighting: bool)

  /** `RenderOptions::default_2d`: no anti-aliasing, HDR, bloom or toggles, no tonemapping. */
  function Default2d(): (o: RenderOptions)
    ensures !o.enableMsaa && !o.enableHdr && !o.enableBloom && !o.showFeatureToggles
    ensures o.blurPassCount == 0 && o.tonemapperType == TonemapperType.None
  {
    RenderOptions(
      enableMsaa := false,
      enableHdr := false,
      enableBloom := false,
      enableTextures := true,
      enableLighting := true,
      showSurfaces := true,
      showWireframes := false,
      showDebug3d := true,
      showText := true,
      showSkybox := true,
      showFeatureToggles := false,
      showShadows := true,
      blurPassCount := 0,
      tonemapperType := TonemapperType.None,
      enableVisibilityUpdate := true)
  }

  /** `RenderOptions::default_3d`: anti-aliasing, bloom with five blur passes, toggles, auto exposure. */
  function Default3d(): (o: RenderOptions)
    ensures o.enableMsaa && !o.enableHdr && o.enableBloom && o.showFeatureToggles
    ensures o.blurPassCount == 5 && o.tonemapperType == AutoExposureOld
  {
    RenderOptions(
      enableMsaa := true,
      enableHdr := false,
      enableBloom := true,
      enableTextures := true,
      enableLighting := true,
      showSurfaces := true,
      showWireframes := false,
      showDebug3d := true,
      showText := true,
      showSkybox := true,
      showFeatureToggles := true,
      showShadows := true,
      blurPassCount := 5,
      tonemapperType := AutoExposureOld,
      enableVisibilityUpdate := true)
  }

  /** The presets agree on everything but the five post-processing settings. */
  lemma PresetsDifferOnlyInPostProcessing()
    ensures Default3d() == Default2d().(enableMsaa := true, enableBloom := true,
                                        showFeatureToggles := true, blurPassCount := 5,
                                        tonemapperType := AutoExposureOld)
  {
  }

  /** Each of the 13 pipeline fields equals the render option of the same name. */
  predicate PipelineMatches(ro: RenderOptions, p: BasicPipelineRenderOptions) {
    && p.enableMsaa == ro.enableMsaa
    && p.enableHdr == ro.enableHdr
    && p.enableBloom == ro.enableBloom
    && p.enableTextures == ro.enableTextures
    && p.showSurfaces == ro.showSurfaces
    && p.showWireframes == ro.showWireframes
    && p.showDebug3d == ro.showDebug3d
    && p.showText == ro.showText
    && p.showSkybox == ro.showSkybox
    && p.showFeatureToggles == ro.showFeatureToggles
    && p.blurPassCount == ro.blurPassCount
    && p.tonemapperType == ro.tonemapperType
    && p.enableVisibilityUpdate == ro.enableVisibilityUpdate
  }

  /** The three mesh fields equal the render options of the same name. */
  predicate MeshMatches(ro: RenderOptions, m: MeshBasicRenderOptions) {
    m.showSurfaces == ro.showSurfaces && m.showShadows == ro.showShadows && m.enableLighting == ro.enableLighting
  }

  /**
   * Pipeline options that match given render options are unique: the copy
   * leaves the pipeline options determined by the render options alone.
   */
  lemma PipelineMatchIsUnique(ro: RenderOptions, p: BasicPipelineRenderOptions, q: BasicPipelineRenderOptions)
    requires PipelineMatches(ro, p) && PipelineMatches(ro, q)
    ensures p == q
  {
  }

  /** The same for the mesh options. */
  lemma MeshMatchIsUnique(ro: RenderOptions, m: MeshBasicRenderOptions, n: MeshBasicRenderOptions)
    requires MeshMatches(ro, m) && MeshMatches(ro, n)
    ensures m == n
  {
  }
}
