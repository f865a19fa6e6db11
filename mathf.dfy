/** The small part of Unity's Vector3 and Mathf that the dash controller uses,
    over mathematical reals (single-precision rounding is not modelled). */
module Mathf {

  /** A Vector3 with real components. */
  datatype Vec3 = Vec3(x: real, y: real, z: real)

  /** Vector3.zero */
  const Zero := Vec3(0.0, 0.0, 0.0)

  /** Vector3.down */
  const Down := Vec3(0.0, -1.0, 0.0)

  function Add(a: Vec3, b: Vec3): Vec3 {
    Vec3(a.x + b.x, a.y + b.y, a.z + b.z)
  }

  function Sub(a: Vec3, b: Vec3): Vec3 {
    Vec3(a.x - b.x, a.y - b.y, a.z - b.z)
  }

  function Scale(v: Vec3, k: real): Vec3 {
    Vec3(v.x * k, v.y * k, v.z * k)
  }

  /** Component-wise division by a non-zero scalar (Vector3 / float). */
  function Divide(v: Vec3, k: real): Vec3
    requires k != 0.0
  {
    Vec3(v.x / k, v.y / k, v.z / k)
  }

  /** Vector3.sqrMagnitude: never negative, and zero for the zero vector. */
  function SqrMagnitude(v: Vec3): (r: real)
    ensures r >= 0.0
    ensures v == Zero ==> r == 0.0
  {
    SquareNonNegative(v.x);
    SquareNonNegative(v.y);
    SquareNonNegative(v.z);
    v.x * v.x + v.y * v.y + v.z * v.z
  }

  lemma SquareNonNegative(a: real)
    ensures a * a >= 0.0
  {
    if a < 0.0 {
      PositiveProduct(-a, -a);
      assert a * a == (-a) * (-a);
    } else if a > 0.0 {
      PositiveProduct(a, a);
    }
  }

  lemma PositiveProduct(a: real, b: real)
    requires a > 0.0 && b > 0.0
    ensures a * b > 0.0
  {
  }

  /** Mathf.Min: the first argument when it is strictly smaller, else the second. */
  function Min(a: real, b: real): (r: real)
    ensures r <= a && r <= b
    ensures r == a || r == b
  {
    if a < b then a else b
  }

  /** Mathf.Clamp: a value below `min` becomes `min`, otherwise one above `max`
      becomes `max`; the first test wins when `min > max`. */
  function Clamp(value: real, min: real, max: real): (r: real)
    ensures min <= max ==> min <= r <= max
    ensures min <= value <= max ==> r == value
    ensures value < min ==> r == min
    ensures min <= value && max < value ==> r == max
  {
    if value < min then min else if value > max then max else value
  }

  /** Mathf.Clamp01: Clamp to [0, 1]. */
  function Clamp01(value: real): (r: real)
    ensures 0.0 <= r <= 1.0
    ensures 0.0 <= value <= 1.0 ==> r == value
    ensures value <= 0.0 ==> r == 0.0
    ensures value >= 1.0 ==> r == 1.0
  {
    if value < 0.0 then 0.0 else if value > 1.0 then 1.0 else value
  }

  /** Mathf.Lerp: a + (b - a) * Clamp01(t). It stays between its endpoints
      and meets them at t <= 0 and at t >= 1. */
  function Lerp(a: real, b: real, t: real): (r: real)
    ensures t <= 0.0 ==> r == a
    ensures t >= 1.0 ==> r == b
    ensures a <= b ==> a <= r <= b
    ensures b <= a ==> b <= r <= a
  {
    var c := Clamp01(t);
    if a <= b then RisingBetween(a, b, c); Interpolate(a, b, c)
    else FallingBetween(a, b, c); Interpolate(a, b, c)
  }

  /** The unclamped interpolation a + (b - a) * c. */
  function Interpolate(a: real, b: real, c: real): real {
    a + (b - a) * c
  }

  lemma RisingBetween(a: real, b: real, c: real)
    requires a <= b && 0.0 <= c <= 1.0
    ensures a <= Interpolate(a, b, c) <= b
  {
    var k := b - a;
    ScaledWithin(k, c);
    calc {
      a + (b - a) * c;
    ==
      a + k * c;
    <=
      a + k;
    ==
      b;
    }
    calc {
      a + (b - a) * c;
    ==
      a + k * c;
    >=
      a;
    }
  }

  lemma FallingBetween(a: real, b: real, c: real)
    requires b < a && 0.0 <= c <= 1.0
    ensures b <= Interpolate(a, b, c) <= a
  {
    var k := a - b;
    ScaledWithin(k, c);
    calc {
      a + (b - a) * c;
    ==
      a - k * c;
    >=
      a - k;
    ==
      b;
    }
    calc {
      a + (b - a) * c;
    ==
      a - k * c;
    <=
      a;
    }
  }

  lemma ScaledWithin(k: real, c: real)
    requires k >= 0.0 && 0.0 <= c <= 1.0
    ensures 0.0 <= k * c <= k
  {
    assert k * c <= k * 1.0;
  }

  /** The smallest integer at least x. */
  function Ceil(x: real): (r: int)
    ensures r as real >= x
    ensures (r - 1) as real < x
  {
    if x.Floor as real == x then x.Floor else x.Floor + 1
  }

  /** Lerp is monotone in t when a <= b. */
  lemma LerpMonotone(a: real, b: real, t1: real, t2: real)
    requires a <= b && t1 <= t2
    ensures Lerp(a, b, t1) <= Lerp(a, b, t2)
  {
    var c1, c2 := Clamp01(t1), Clamp01(t2);
    var k := b - a;
    ScaledMonotone(k, c1, c2);
    calc {
      Lerp(a, b, t1);
    ==
      a + k * c1;
    <=
      a + k * c2;
    ==
      Lerp(a, b, t2);
    }
  }

  lemma ScaledMonotone(k: real, c1: real, c2: real)
    requires k >= 0.0 && c1 <= c2
    ensures k * c1 <= k * c2
  {
    if k > 0.0 && c1 < c2 {
      var d := c2 - c1;
      PositiveProduct(k, d);
      calc {
        k * c2;
      ==
        k * (c1 + d);
      ==
        k * c1 + k * d;
      >
        k * c1;
      }
    }
  }

  /** Squaring is strictly monotone on the non-negative reals. */
  lemma SquareMonotone(a: real, b: real)
    requires 0.0 <= a && 0.0 <= b
    ensures a <= b <==> a * a <= b * b
  {
    if a <= b {
      ScaledMonotone(a, a, b);
      ScaledMonotone(b, a, b);
      calc {
        a * a;
      <=
        a * b;
      ==
        b * a;
      <=
        b * b;
      }
    } else {
      var d := a - b;
      PositiveProduct(a, d);
      ScaledMonotone(b, b, a);
      calc {
        b * b;
      <=
        b * a;
      ==
        a * b;
      <
        a * b + a * d;
      ==
        a * (b + d);
      ==
        a * a;
      }
    }
  }
}
