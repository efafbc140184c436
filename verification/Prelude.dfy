/** Small value types shared by every module. */
module Prelude {

  datatype Option<+T> = None | Some(value: T)

  datatype Result<+T, +E> = Ok(value: T) | Err(error: E)

  function Min(a: real, b: real): real {
    if a <= b then a else b
  }

  function Max(a: real, b: real): real {
    if a >= b then a else b
  }

  const HEX_DIGITS := "0123456789abcdef"

  lemma HexDigit(c: char)
    ensures c in HEX_DIGITS <==> ('0' <= c <= '9' || 'a' <= c <= 'f')
  {
    if '0' <= c <= '9' { assert HEX_DIGITS[c as int - '0' as int] == c; }
    if 'a' <= c <= 'f' { assert HEX_DIGITS[c as int - 'a' as int + 10] == c; }
  }

  /** Always true. Where a definition reads `forall n: nat :: Peek(n) ==> P`, it means `P`; the
      verifier looks inside only where a proof mentions `Peek`. */
  predicate Peek(n: nat) {
    true
  }

  /** As `Peek`, for definitions that contain others kept apart by `Peek`. */
  predicate Glance(n: nat) {
    true
  }
}
