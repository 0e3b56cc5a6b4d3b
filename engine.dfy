/**
 * Shared definitions of the engine package: the three-component point, the
 * RGBA colour, the degree-to-radian constant, the capacity of the global
 * pools, and the sine/cosine pair the rotation operations are given.
 */
module Engine {

  /** An 8-bit unsigned component (Go's uint8). */
  type Byte = x: int | 0 <= x < 256

  /** Go's color.RGBA. */
  datatype RGBA = RGBA(r: Byte, g: Byte, b: Byte, a: Byte)

  /** The colour every node starts with. */
  const White := RGBA(255, 255, 255, 255)

  /**
   * A point, a scale or a velocity. Only x and y take part in the 2D
   * algebra; z is carried along untouched.
   */
  datatype Vector3 = Vector3(x: real, y: real, z: real)

  /** NewVector3: the zero vector. */
  const Zero := Vector3(0.0, 0.0, 0.0)

  /** Vector3.Set2Components: overwrite x and y, keep z. */
  function Set2Components(v: Vector3, x: real, y: real): Vector3
  {
    v.(x := x, y := y)
  }

  /** NewVector3With2Components: a fresh vector with z = 0. */
  function With2Components(x: real, y: real): Vector3
  {
    Vector3(x, y, 0.0)
  }

  /** Vector3.ScaleBy: multiply every component by s. */
  function ScaleBy(v: Vector3, s: real): Vector3
  {
    Vector3(v.x * s, v.y * s, v.z * s)
  }

  /** Vector3.Add: component-wise sum. */
  function Add(v: Vector3, w: Vector3): Vector3
  {
    Vector3(v.x + w.x, v.y + w.y, v.z + w.z)
  }

  /** Go's math.Pi, as the literal the math package declares. */
  const Pi: real := 3.14159265358979323846264338327950288419716939937510582097494459

  /** DegreeToRadians: 45.0 * DegreeToRadians is a quarter of Pi. */
  const DegreeToRadians: real := Pi / 180.0

  /** The number of instances in each of the global pools. */
  const PoolCapacity: nat := 100

  /**
   * math.Sin and math.Cos, which this model does not define: every operation
   * that needs them is given the pair as a value.
   */
  datatype Trig = Trig(sin: real -> real, cos: real -> real)
  {
    /** The only facts about sine and cosine the model relies on. */
    predicate AtZero() {
      sin(0.0) == 0.0 && cos(0.0) == 1.0
    }
  }

  datatype Option<T> = None | Some(value: T)
}
