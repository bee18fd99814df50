/** Failure-compatible values and the checked 64-bit integers shared by all modules. */
module Common {

  datatype Option<+T> = None | Some(value: T)

  datatype Result<+T> = Ok(value: T) | Err(error: string)

  const I64_MIN: int := -0x8000_0000_0000_0000
  const I64_MAX: int := 0x7fff_ffff_ffff_ffff

  predicate InI64(x: int) {
    I64_MIN <= x <= I64_MAX
  }

  type i64 = x: int | InI64(x)

  /** The `checked_*` family: `None` outside the 64-bit range. */
  function Checked(x: int): (r: Option<i64>)
    ensures r.Some? <==> -9223372036854775808 <= x <= 9223372036854775807
    ensures r.Some? ==> r.value == x
  {
    if InI64(x) then Some(x) else None
  }

  function Abs(x: int): nat {
    if x < 0 then -x else x
  }

  /** Machine division: the quotient is truncated toward zero. */
  function TruncDiv(a: int, b: int): (q: int)
    requires b != 0
    ensures var r := a - q * b; Abs(r) < Abs(b) && (a >= 0 ==> r >= 0) && (a <= 0 ==> r <= 0)
    ensures b == 1 ==> q == a
  {
    var q := Abs(a) / Abs(b);
    DivRounds(Abs(a), Abs(b));
    Signs(q, b);
    if (a < 0) == (b < 0) then q else -q
  }

  lemma Signs(q: int, b: int)
    ensures q * Abs(b) == (if b < 0 then -q * b else q * b) && -q * b == -(q * b)
  {
  }

  lemma DivRounds(a: nat, b: nat)
    requires b != 0
    ensures 0 <= a - (a / b) * b < b
  {
  }

  /** Machine remainder: smaller than the divisor, and zero or of the sign of the dividend. */
  function TruncRem(a: int, b: int): (r: int)
    requires b != 0
    ensures a == TruncDiv(a, b) * b + r
    ensures Abs(r) < Abs(b) && (a >= 0 ==> r >= 0) && (a <= 0 ==> r <= 0)
  {
    a - TruncDiv(a, b) * b
  }

  /** Quotient and remainder are the only ones with these properties. */
  lemma TruncUnique(a: int, b: int, q: int, r: int)
    requires b != 0 && a == q * b + r && Abs(r) < Abs(b) && (a >= 0 ==> r >= 0) && (a <= 0 ==> r <= 0)
    ensures q == TruncDiv(a, b) && r == TruncRem(a, b)
  {
    hide TruncDiv, TruncRem;
    SameQuotient(b, q, r, TruncDiv(a, b), TruncRem(a, b));
  }

  lemma SameQuotient(b: int, q: int, r: int, p: int, s: int)
    requires q * b + r == p * b + s
    requires Abs(r) < Abs(b) && Abs(s) < Abs(b) && ((r >= 0 && s >= 0) || (r <= 0 && s <= 0))
    ensures q == p && r == s
  {
    var d := q - p;
    assert d * b == q * b - p * b;
    if d != 0 { SmallMultiple(d, b); }
  }

  lemma SmallMultiple(d: int, b: int)
    requires d != 0
    ensures Abs(d * b) >= Abs(b)
  {
    if d >= 1 && b >= 0 {
      assert d * b == (d - 1) * b + b && (d - 1) * b >= 0;
    } else if d >= 1 {
      assert d * -b == (d - 1) * -b + -b && (d - 1) * -b >= 0;
    } else if b >= 0 {
      assert -d * b == (-d - 1) * b + b && (-d - 1) * b >= 0;
    } else {
      assert -d * -b == (-d - 1) * -b + -b && (-d - 1) * -b >= 0;
    }
  }
}
