/** Shared vocabulary: results, machine integers and Rust's checked operations. */
module Base {

  datatype Option<+T> = None | Some(value: T)

  /** Rust's `Result`; `:-` plays the part of `?`. */
  datatype Result<+T, +E> = Ok(value: T) | Err(error: E) {
    predicate IsFailure() { Err? }
    function PropagateFailure<U>(): Result<U, E>
      requires Err?
    {
      Err(error)
    }
    function Extract(): T
      requires Ok?
    {
      value
    }
  }

  datatype Check<+E> = Pass | Fail(error: E) {
    predicate IsFailure() { Fail? }
    function PropagateFailure<U>(): Result<U, E>
      requires Fail?
    {
      Err(error)
    }
  }

  /** Anchor's `require!`. */
  function Need<E>(condition: bool, error: E): Check<E> {
    if condition then Pass else Fail(error)
  }

  /** The error of a failed result, for branches that carry a failure on under another type. */
  function ErrorOf<T, E>(r: Result<T, E>, otherwise: E): E {
    if r.Err? then r.error else otherwise
  }

  const U64_MAX: nat := 0xFFFF_FFFF_FFFF_FFFF
  const U128_MAX: nat := 0xFFFF_FFFF_FFFF_FFFF_FFFF_FFFF_FFFF_FFFF

  type byte = n: nat | n < 256
  type u16 = n: nat | n < 0x1_0000
  type u64 = n: nat | n <= U64_MAX
  type u128 = n: nat | n <= U128_MAX

  /** `checked_add`, `checked_sub`, `checked_mul` and `checked_div`, as `ok_or(error)` uses them. */
  function Add64<E>(a: u64, b: u64, error: E): Result<u64, E> {
    if a + b <= U64_MAX then Ok(a + b) else Err(error)
  }

  function Sub64<E>(a: u64, b: u64, error: E): Result<u64, E> {
    if b <= a then Ok(a - b) else Err(error)
  }

  function Add128<E>(a: u128, b: u128, error: E): Result<u128, E> {
    if a + b <= U128_MAX then Ok(a + b) else Err(error)
  }

  function Sub128<E>(a: u128, b: u128, error: E): Result<u128, E> {
    if b <= a then Ok(a - b) else Err(error)
  }

  function Mul128<E>(a: u128, b: u128, error: E): Result<u128, E> {
    if a * b <= U128_MAX then Ok(a * b) else Err(error)
  }

  function Div128<E>(a: u128, b: u128, error: E): Result<u128, E> {
    if b == 0 then Err(error) else
    assert a / b <= a by { DivShrinks(a, b); }
    Ok(a / b)
  }

  /** `u64::try_from(u128)`. */
  function Narrow64<E>(a: u128, error: E): Result<u64, E> {
    if a <= U64_MAX then Ok(a) else Err(error)
  }

  /** The `as u64` cast, which truncates. */
  function Truncate64(a: nat): u64 {
    a % (U64_MAX + 1)
  }

  lemma MulMono(a: nat, b: nat, c: nat)
    requires a <= b
    ensures a * c <= b * c && c * a <= c * b
  {
    assert (b - a) * c >= 0;
  }

  /** The quotient is the largest multiplier that fits. */
  lemma DivBounds(a: nat, b: nat)
    requires b > 0
    ensures a / b * b <= a < a / b * b + b
  {
  }

  lemma DivIsLargest(a: nat, b: nat, q: nat)
    requires b > 0
    ensures q * b <= a <==> q <= a / b
  {
    DivBounds(a, b);
    if q <= a / b {
      MulMono(q, a / b, b);
    } else {
      MulMono(a / b + 1, q, b);
    }
  }

  lemma DivShrinks(a: nat, b: nat)
    requires b > 0
    ensures a / b <= a
  {
    if a / b > a {
      DivBounds(a, b);
      MulMono(1, b, a / b);
    }
  }
}
