/** Small shared vocabulary: an optional value and the real-number helpers
    (`Math.min`, `Math.max`, `Math.abs`) the scenes use. */
module Common {

  datatype Option<T> = None | Some(value: T)

  function Min(a: real, b: real): (m: real)
    ensures m <= a && m <= b && (m == a || m == b)
  {
    if a <= b then a else b
  }

  function Max(a: real, b: real): (m: real)
    ensures a <= m && b <= m && (m == a || m == b)
  {
    if a <= b then b else a
  }

  function Abs(x: real): (r: real)
    ensures 0.0 <= r && (r == x || r == -x)
  {
    if x < 0.0 then -x else x
  }
}
