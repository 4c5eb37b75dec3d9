/** Small value types shared by the editor and the gameplay modules. */
module Common {

  datatype Option<T> = None | Some(value: T)

  /** The outcome of an operation that either returns a value or raises. */
  datatype Result<T, E> = Ok(value: T) | Err(error: E)

  /** The outcome of an operation that returns nothing or raises. */
  datatype Outcome<E> = Pass | Fail(error: E)

  /** Unity's Vector3, with real components. */
  datatype Vec3 = Vec3(x: real, y: real, z: real) {
    function Plus(o: Vec3): Vec3 { Vec3(x + o.x, y + o.y, z + o.z) }
    function Scale(k: real): Vec3 { Vec3(k * x, k * y, k * z) }
  }

  const Zero3: Vec3 := Vec3(0.0, 0.0, 0.0)

  function Abs(x: real): real { if x < 0.0 then -x else x }
  function Max(a: real, b: real): real { if a < b then b else a }
  function Min(a: real, b: real): real { if a < b then a else b }
}
