/** Plain records standing in for the Three.js values the core reads and writes. */
module Common {

  /** A Three.js `Vector3` as a value. */
  datatype Vec3 = Vec3(x: real, y: real, z: real)

  datatype Option<T> = None | Some(value: T)

  /** JavaScript's `Math.PI`, written as the decimal the engine prints for it. */
  const Pi: real := 3.141592653589793

  /**
   * `Math.atan2`, `Math.sin` and `Math.cos`. Their values are computed by the
   * JavaScript engine, so the model receives them as parameters and assumes
   * nothing about them.
   */
  datatype Trig = Trig(atan2: (real, real) -> real, sin: real -> real, cos: real -> real)
}
