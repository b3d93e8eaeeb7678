/** The complex plane and the camera that looks at it (src/main.rs). */
module Plane {

  /** A complex number; `re` and `im` stand for the source's `real` and `imag`. */
  datatype Complex = Complex(re: real, im: real)

  /** `Complex::ZERO`. */
  const ZERO: Complex := Complex(0.0, 0.0)

  /**
   * The visible region: its centre and half its width on the real axis.
   * The imaginary half-height follows from the aspect ratio of the image.
   */
  datatype Camera = Camera(center: Complex, radiusReal: real)

  /** A screen-space vector in pixels, y pointing down (egui's `Vec2`). */
  datatype Vec2 = Vec2(x: real, y: real)

  function Neg(v: Vec2): Vec2 { Vec2(-v.x, -v.y) }

  function Add(u: Vec2, v: Vec2): Vec2 { Vec2(u.x + v.x, u.y + v.y) }

  /** `Camera::default()`: the square of radius 2 around the origin. */
  function DefaultCamera(): (c: Camera)
    ensures c.center == ZERO && c.radiusReal == 2.0
  {
    Camera(ZERO, 2.0)
  }
}
