/**
 * The Mandelbrot renderer's CPU-side state (src/fractals/mandelbrot.rs): the
 * camera, the image size, the dirty flag, and a record of what was last handed
 * to the GPU. The wgpu objects themselves are not modelled; the texture is
 * represented by its size and the uniform buffer by the `Params` last written.
 */
module Mandelbrot {
  import opened Base
  import opened Plane

  /** `CYCLE_DEPTH`: the depth the shader reports when it detects a cycle. */
  const CYCLE_DEPTH: U32 := U32_MAX

  /** Accepted by the constructor and otherwise unused. */
  datatype MandelbrotColoring = LogDepth | HighlightCycle

  /** The uniform record uploaded to the shader. */
  datatype Params = Params(
    centerReal: real, centerImag: real,
    radiusReal: real, radiusImag: real,
    width: U32, height: U32,
    z0Real: real, z0Imag: real,
    maxDepth: U32, cycleDepth: U32)

  /**
   * `Params::new`: the camera and image settings packed for the shader. The
   * imaginary radius is derived so that a pixel is square.
   */
  function NewParams(camera: Camera, width: U32, height: U32, z0: Complex, maxDepth: U32): (p: Params)
    requires width > 0
    ensures Camera(Complex(p.centerReal, p.centerImag), p.radiusReal) == camera
    ensures Complex(p.z0Real, p.z0Imag) == z0
    ensures p.width == width && p.height == height && p.maxDepth == maxDepth
    ensures p.radiusImag * (width as real) == p.radiusReal * (height as real)
    ensures p.cycleDepth == U32_MAX
  {
    Params(
      camera.center.re, camera.center.im,
      camera.radiusReal, camera.radiusReal * height as real / width as real,
      width, height,
      z0.re, z0.im,
      maxDepth, CYCLE_DEPTH)
  }

  /** The size of the texture the image is rendered into (`texture.size()`). */
  datatype Extent = Extent(width: U32, height: U32)

  /** The width of one pixel on the plane, for both axes. */
  function PixelSize(c: Camera, width: U32): real
    requires width > 0
  {
    c.radiusReal / width as real
  }

  /**
   * The point of the plane drawn at screen offset `o` (in pixels, from the
   * centre of the image, y down). A pixel is `2 * radiusReal / width` wide on
   * both axes, as the square-pixel radii of `NewParams` suggest. The
   * orientation (x right is +re, y down is -im) is assumed: the shader that
   * fixes it is not part of this model.
   */
  function PointAt(c: Camera, width: U32, o: Vec2): Complex
    requires width > 0
  {
    Complex(c.center.re + 2.0 * o.x * PixelSize(c, width),
            c.center.im - 2.0 * o.y * PixelSize(c, width))
  }

  /** The camera after dragging the image by `pan` pixels, in exact arithmetic. */
  function Panned(c: Camera, width: U32, height: U32, pan: Vec2): (r: Camera)
    requires width > 0 && height > 0
    ensures r.radiusReal == c.radiusReal
    ensures pan == Vec2(0.0, 0.0) ==> r == c
  {
    Camera(
      Complex(c.center.re - 2.0 * pan.x / width as real * c.radiusReal,
              c.center.im + 2.0 * pan.y / height as real * (c.radiusReal * height as real / width as real)),
      c.radiusReal)
  }

  /** `a / w * r` is `a * (r / w)`. */
  lemma DivThenMul(a: real, r: real, w: real)
    requires w != 0.0
    ensures a / w * r == a * (r / w)
  {
    var x, y := a / w, r / w;
    assert x * w == a;
    assert y * w == r;
    assert x * r == x * (y * w);
    assert a * y == (x * w) * y;
  }

  /** The vertical pan step, `a / h * (r * h / w)`, is `a * (r / w)`: the height cancels. */
  lemma HeightCancels(a: real, r: real, h: real, w: real)
    requires h != 0.0 && w != 0.0
    ensures a / h * (r * h / w) == a * (r / w)
  {
    var q, s, y := a / h, r * h / w, r / w;
    assert q * h == a;
    assert s * w == r * h;
    assert y * w == r;
    assert s == y * h by {
      assert (y * h) * w == (y * w) * h;
    }
    assert q * s == q * (y * h);
    assert q * (y * h) == (q * h) * y;
  }

  /** `Panned` moves the centre by twice the drag, measured in pixels, against the drag on the real axis. */
  lemma PannedCenter(c: Camera, width: U32, height: U32, pan: Vec2)
    requires width > 0 && height > 0
    ensures var k := PixelSize(c, width);
      Panned(c, width, height, pan).center ==
      Complex(c.center.re - 2.0 * pan.x * k, c.center.im + 2.0 * pan.y * k)
  {
    var w, h, r := width as real, height as real, c.radiusReal;
    var a, b := 2.0 * pan.x, 2.0 * pan.y;
    var k := PixelSize(c, width);
    assert k == r / w;
    DivThenMul(a, r, w);
    HeightCancels(b, r, h, w);
    var p := Panned(c, width, height, pan);
    assert p.center.re == c.center.re - a / w * r;
    assert p.center.im == c.center.im + b / h * (r * h / w);
  }

  /** Panning moves the image with the cursor: the point under `o` is now under `o + pan`. */
  lemma PanKeepsPointUnderCursor(c: Camera, width: U32, height: U32, pan: Vec2, o: Vec2)
    requires width > 0 && height > 0
    ensures PointAt(Panned(c, width, height, pan), width, Add(o, pan)) == PointAt(c, width, o)
  {
    var k := PixelSize(c, width);
    PannedCenter(c, width, height, pan);
    assert PixelSize(Panned(c, width, height, pan), width) == k;
    assert 2.0 * (o.x + pan.x) * k == 2.0 * o.x * k + 2.0 * pan.x * k;
    assert 2.0 * (o.y + pan.y) * k == 2.0 * o.y * k + 2.0 * pan.y * k;
  }

  /**
   * The camera after `zoom(mouse, zoom)` with `zoom != 1`: pan by `-mouse`,
   * divide the radius, pan back by `mouse`.
   */
  function Zoomed(c: Camera, width: U32, height: U32, mouse: Vec2, zoom: real): (r: Camera)
    requires width > 0 && height > 0 && zoom != 0.0
    ensures r.radiusReal == c.radiusReal / zoom
  {
    Panned(Rescaled(Panned(c, width, height, Neg(mouse)), zoom), width, height, mouse)
  }

  /** The camera with its radius divided by `zoom`. */
  function Rescaled(c: Camera, zoom: real): (r: Camera)
    requires zoom != 0.0
    ensures r.center == c.center
  {
    Camera(c.center, c.radiusReal / zoom)
  }

  /** `a * (k / z)` is `(a * k) / z`. */
  lemma MulDiv(a: real, k: real, z: real)
    requires z != 0.0
    ensures a * (k / z) == (a * k) / z
  {
    var y, q := k / z, (a * k) / z;
    assert y * z == k;
    assert q * z == a * k;
    assert (a * y) * z == a * (y * z);
    assert (a * y - q) * z == 0.0;
  }

  /** Dividing the radius by `zoom` divides the pixel size by `zoom`. */
  lemma PixelSizeScales(c: Camera, width: U32, zoom: real)
    requires width > 0 && zoom != 0.0
    ensures PixelSize(Rescaled(c, zoom), width) == PixelSize(c, width) / zoom
  {
    var w, r := width as real, c.radiusReal;
    var x, y := (r / zoom) / w, (r / w) / zoom;
    assert (x * w) * zoom == r;
    assert (y * zoom) * w == r;
    assert (x * zoom) * w == (x * w) * zoom;
    assert x * zoom == y * zoom;
  }

  /**
   * Zooming is a scaling of the plane by `1 / zoom` about the point under the
   * mouse: the centre's offset from that point shrinks by the zoom factor.
   */
  lemma ZoomScalesAboutMouse(c: Camera, width: U32, height: U32, mouse: Vec2, zoom: real)
    requires width > 0 && height > 0 && zoom != 0.0
    ensures var p, z := PointAt(c, width, mouse), Zoomed(c, width, height, mouse, zoom);
      z.center.re - p.re == (c.center.re - p.re) / zoom &&
      z.center.im - p.im == (c.center.im - p.im) / zoom
  {
    var k := PixelSize(c, width);
    ZoomedCenter(c, width, height, mouse, zoom);
    ScaleOffset(2.0 * mouse.x, k, zoom);
    ScaleOffset(2.0 * mouse.y, k, zoom);
  }

  /** The zoomed camera's centre, measured from the point under the mouse. */
  lemma ZoomedCenter(c: Camera, width: U32, height: U32, mouse: Vec2, zoom: real)
    requires width > 0 && height > 0 && zoom != 0.0
    ensures var p, kz := PointAt(c, width, mouse), PixelSize(c, width) / zoom;
      Zoomed(c, width, height, mouse, zoom).center == Complex(p.re - 2.0 * mouse.x * kz, p.im + 2.0 * mouse.y * kz)
  {
    var toMouse := Panned(c, width, height, Neg(mouse));
    var scaled := Rescaled(toMouse, zoom);
    PanToMouse(c, width, height, mouse);
    PannedCenter(scaled, width, height, mouse);
    PixelSizeScales(toMouse, width, zoom);
  }

  /** Panning by minus the mouse offset centres the camera on the point under the mouse. */
  lemma PanToMouse(c: Camera, width: U32, height: U32, mouse: Vec2)
    requires width > 0 && height > 0
    ensures var t := Panned(c, width, height, Neg(mouse));
      t.center == PointAt(c, width, mouse) && PixelSize(t, width) == PixelSize(c, width)
  {
    var k, t := PixelSize(c, width), Panned(c, width, height, Neg(mouse));
    PannedCenter(c, width, height, Neg(mouse));
    NegTwice(mouse.x, k);
    NegTwice(mouse.y, k);
    assert t.center.re == c.center.re - 2.0 * -mouse.x * k;
    assert t.center.im == c.center.im + 2.0 * -mouse.y * k;
    assert t.radiusReal == c.radiusReal;
  }

  /** `2 * (-a) * k` is `-(2 * a * k)`. */
  lemma NegTwice(a: real, k: real)
    ensures 2.0 * -a * k == -(2.0 * a * k)
  {
  }

  /** Scaling an offset `a * k` by `1 / z`, with and without its sign. */
  lemma ScaleOffset(a: real, k: real, z: real)
    requires z != 0.0
    ensures a * (k / z) == (a * k) / z
    ensures -(a * (k / z)) == -(a * k) / z
  {
    MulDiv(a, k, z);
  }

  /** The point of the plane under the mouse is the same before and after a zoom. */
  lemma ZoomKeepsPointUnderMouse(c: Camera, width: U32, height: U32, mouse: Vec2, zoom: real)
    requires width > 0 && height > 0 && zoom != 0.0
    ensures PointAt(Zoomed(c, width, height, mouse, zoom), width, mouse) == PointAt(c, width, mouse)
  {
    var zero := Vec2(0.0, 0.0);
    var toMouse := Panned(c, width, height, Neg(mouse));
    var scaled := Rescaled(toMouse, zoom);
    PanKeepsPointUnderCursor(c, width, height, Neg(mouse), mouse);
    PanKeepsPointUnderCursor(scaled, width, height, mouse, zero);
    assert Add(mouse, Neg(mouse)) == zero;
    assert Add(zero, mouse) == mouse;
  }

  /**
   * One fractal instance. `texture` and `uniforms` record the GPU side of the
   * render cache: the size of the texture and the last uniform record written.
   * The ghost counters record how often the texture was recreated and how often
   * a render was submitted.
   */
  class Mandelbrot {
    var camera: Camera
    var width: U32
    var height: U32
    var needsUpdate: bool
    var z0: Complex
    var maxDepth: U32
    var texture: Extent
    var uniforms: Params
    ghost var textureRecreations: nat
    ghost var renders: nat

    /**
     * The dirty-flag invariant: whenever the flag is clear, the texture has the
     * current size and the shader's uniforms describe the current state, so the
     * cached image is up to date.
     */
    ghost predicate Valid()
      reads this
    {
      !needsUpdate ==>
        width > 0 && height > 0 &&
        texture == Extent(width, height) &&
        uniforms == NewParams(camera, width, height, z0, maxDepth)
    }

    /** `Mandelbrot::new`: the first frame must be rendered, the texture already has the requested size. */
    constructor (camera: Camera, width: U32, height: U32, z0: Complex, maxDepth: U32, coloring: MandelbrotColoring)
      requires width > 0 && height > 0
      ensures Valid() && needsUpdate
      ensures this.camera == camera && this.width == width && this.height == height
      ensures this.z0 == z0 && this.maxDepth == maxDepth
      ensures texture == Extent(width, height)
      ensures uniforms == NewParams(camera, width, height, z0, maxDepth)
      ensures textureRecreations == 0 && renders == 0
    {
      this.camera := camera;
      this.width := width;
      this.height := height;
      this.needsUpdate := true;
      this.z0 := z0;
      this.maxDepth := maxDepth;
      this.texture := Extent(width, height);
      this.uniforms := NewParams(camera, width, height, z0, maxDepth);
      this.textureRecreations := 0;
      this.renders := 0;
    }

    /** `Mandelbrot::default`: the default camera, a 100 by 100 image, `z0 = 0`, depth 1024. */
    constructor Default()
      ensures Valid() && needsUpdate
      ensures camera == DefaultCamera() && width == 100 && height == 100
      ensures z0 == ZERO && maxDepth == 1024
      ensures texture == Extent(100, 100)
      ensures uniforms == NewParams(DefaultCamera(), 100, 100, ZERO, 1024)
      ensures textureRecreations == 0 && renders == 0
    {
      camera := DefaultCamera();
      width := 100;
      height := 100;
      needsUpdate := true;
      z0 := ZERO;
      maxDepth := 1024;
      texture := Extent(100, 100);
      uniforms := NewParams(DefaultCamera(), 100, 100, ZERO, 1024);
      textureRecreations := 0;
      renders := 0;
    }

    /** `set_width`: the flag is raised only when the width really changes. */
    method SetWidth(w: U32)
      requires Valid()
      modifies this
      ensures Valid()
      ensures camera == old(camera) && height == old(height)
      ensures z0 == old(z0) && maxDepth == old(maxDepth)
      ensures texture == old(texture) && uniforms == old(uniforms)
      ensures textureRecreations == old(textureRecreations) && renders == old(renders)
      ensures width == w
      ensures needsUpdate == (old(needsUpdate) || old(width) != w)
    {
      if width != w {
        width := w;
        needsUpdate := true;
      }
    }

    /** `set_height`: the flag is raised only when the height really changes. */
    method SetHeight(h: U32)
      requires Valid()
      modifies this
      ensures Valid()
      ensures camera == old(camera) && width == old(width)
      ensures z0 == old(z0) && maxDepth == old(maxDepth)
      ensures texture == old(texture) && uniforms == old(uniforms)
      ensures textureRecreations == old(textureRecreations) && renders == old(renders)
      ensures height == h
      ensures needsUpdate == (old(needsUpdate) || old(height) != h)
    {
      if height != h {
        height := h;
        needsUpdate := true;
      }
    }

    /**
     * `pan`: a zero drag is ignored (the early return leaves the flag alone); any
     * other drag moves the centre and raises the flag. In exact arithmetic the
     * early return computes what the formula would: `Panned` by zero is the identity.
     */
    method Pan(pan: Vec2)
      requires width > 0 && height > 0
      modifies this
      ensures old(Valid()) ==> Valid()
      ensures width == old(width) && height == old(height)
      ensures z0 == old(z0) && maxDepth == old(maxDepth)
      ensures texture == old(texture) && uniforms == old(uniforms)
      ensures textureRecreations == old(textureRecreations) && renders == old(renders)
      ensures camera == Panned(old(camera), width, height, pan)
      ensures pan == Vec2(0.0, 0.0) ==> needsUpdate == old(needsUpdate)
      ensures pan != Vec2(0.0, 0.0) ==> needsUpdate
    {
      if pan.x == 0.0 && pan.y == 0.0 {
        return;
      }
      camera := Panned(camera, width, height, pan);
      needsUpdate := true;
    }

    /** `zoom`: a factor of 1 is ignored; any other zooms about the mouse and raises the flag. */
    method Zoom(mouse: Vec2, zoom: real)
      requires Valid() && width > 0 && height > 0 && zoom != 0.0
      modifies this
      ensures Valid()
      ensures width == old(width) && height == old(height)
      ensures z0 == old(z0) && maxDepth == old(maxDepth)
      ensures texture == old(texture) && uniforms == old(uniforms)
      ensures textureRecreations == old(textureRecreations) && renders == old(renders)
      ensures zoom == 1.0 ==> camera == old(camera) && needsUpdate == old(needsUpdate)
      ensures zoom != 1.0 ==> camera == Zoomed(old(camera), width, height, mouse, zoom) && needsUpdate
    {
      if zoom == 1.0 {
        return;
      }
      Pan(Neg(mouse));
      camera := Rescaled(camera, zoom);
      Pan(mouse);
      needsUpdate := true;
    }

    /**
     * `render_to_texture`: uploads the current parameters, resizes the texture
     * if (and only if) its size is stale, submits one render and clears the flag.
     */
    method RenderToTexture()
      requires width > 0 && height > 0
      modifies this
      ensures Valid() && !needsUpdate
      ensures camera == old(camera) && width == old(width) && height == old(height)
      ensures z0 == old(z0) && maxDepth == old(maxDepth)
      ensures uniforms == NewParams(camera, width, height, z0, maxDepth)
      ensures texture == Extent(width, height)
      ensures textureRecreations == old(textureRecreations) + (if old(texture) == Extent(width, height) then 0 else 1)
      ensures renders == old(renders) + 1
    {
      needsUpdate := false;
      uniforms := NewParams(camera, width, height, z0, maxDepth);
      var newSize := Extent(width, height);
      if texture != newSize {
        texture := newSize;
        textureRecreations := textureRecreations + 1;
      }
      renders := renders + 1;
    }
  }
}
