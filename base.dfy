/** Machine integers and the Option type shared by the rest of the model. */
module Base {

  /** Largest value of a Rust `u32`. */
  const U32_MAX: int := 0xFFFF_FFFF

  /** A Rust `u32`: the widths, heights and depths of the renderer. */
  type U32 = x: int | 0 <= x <= U32_MAX

  /** Rust's `Option<T>`. */
  datatype Option<T> = None | Some(value: T)
}
