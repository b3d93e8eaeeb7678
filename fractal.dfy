/**
 * The cache protocol every fractal follows when it is painted
 * (`Fractal::render_to_ui`, src/fractals/fractal.rs). The trait's default method
 * is modelled over `Mandelbrot`, the implementation this model contains.
 */
module Fractal {
  import opened Base
  import M = Mandelbrot

  /**
   * `render_to_ui`: match the image size to the area available, re-render only
   * when the cached image is stale, then paint the texture. `rendered` says
   * whether `render_to_texture` was called.
   */
  method RenderToUi(f: M.Mandelbrot, availableWidth: U32, availableHeight: U32) returns (rendered: bool)
    requires f.Valid() && availableWidth > 0 && availableHeight > 0
    modifies f
    ensures f.Valid() && !f.needsUpdate
    ensures f.width == availableWidth && f.height == availableHeight
    ensures rendered == (old(f.needsUpdate) || old(f.width) != availableWidth || old(f.height) != availableHeight)
    ensures f.renders == old(f.renders) + (if rendered then 1 else 0)
    ensures f.textureRecreations ==
      old(f.textureRecreations) + (if old(f.texture) == M.Extent(availableWidth, availableHeight) then 0 else 1)
    ensures !rendered ==> f.texture == old(f.texture) && f.uniforms == old(f.uniforms)
    ensures f.camera == old(f.camera) && f.z0 == old(f.z0) && f.maxDepth == old(f.maxDepth)
  {
    if f.width != availableWidth {
      f.SetWidth(availableWidth);
    }
    if f.height != availableHeight {
      f.SetHeight(availableHeight);
    }
    if f.needsUpdate {
      f.RenderToTexture();
      rendered := true;
    } else {
      rendered := false;
    }
  }

  /**
   * Two frames painted into an area of the same size render at most once: the
   * second frame is always served from the cache.
   */
  method RenderTwiceSameArea(f: M.Mandelbrot, availableWidth: U32, availableHeight: U32)
    returns (first: bool, second: bool)
    requires f.Valid() && availableWidth > 0 && availableHeight > 0
    modifies f
    ensures !second
    ensures f.renders <= old(f.renders) + 1
    ensures f.Valid() && !f.needsUpdate
  {
    first := RenderToUi(f, availableWidth, availableHeight);
    second := RenderToUi(f, availableWidth, availableHeight);
  }
}
