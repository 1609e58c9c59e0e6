/** Go's primitive values as the rest of the model sees them.
    A Go `string` is an immutable sequence of bytes, and `[]byte(s)` and
    `string(b)` copy the bytes unchanged, so both are modelled by `GoString`. */
module GoBase {

  newtype byte = x: int | 0 <= x < 256

  type GoString = seq<byte>

  datatype Option<T> = None | Some(value: T)

  /** The errors the core can observe. `nil` is `None`. */
  datatype Error =
    | BindFailed
    | AcceptFailed
    | ReadFailed
    | WriteFailed
    | CloseFailed
    | OpenFailed
    | StartFailed(cause: Error)
    | LogOpenFailed(cause: Error)

  function Min(a: int, b: int): int
  {
    if a <= b then a else b
  }

  /** The bytes of a Go string literal written in ASCII. */
  function Lit(s: string): GoString
    requires forall i | 0 <= i < |s| :: s[i] as int < 256
  {
    seq(|s|, i requires 0 <= i < |s| => s[i] as int as byte)
  }

  const ZERO: byte := 48
  const MINUS: byte := 45

  predicate IsDigit(b: byte)
  {
    ZERO <= b <= ZERO + 9
  }

  /** Decimal digits of a natural number, most significant first, as `%d` prints them. */
  function Digits(n: nat): (r: GoString)
    ensures |r| >= 1
    ensures forall i | 0 <= i < |r| :: IsDigit(r[i])
  {
    if n < 10 then [ZERO + n as byte] else Digits(n / 10) + [ZERO + (n % 10) as byte]
  }

  /** `fmt.Sprintf("%d", n)` for a Go `int`. */
  function Decimal(n: int): GoString
  {
    if n < 0 then [MINUS] + Digits(-n) else Digits(n)
  }

  /** Reads back a run of decimal digits. */
  function DigitsValue(s: GoString): nat
  {
    if s == [] then 0
    else DigitsValue(s[..|s| - 1]) * 10 + (if IsDigit(s[|s| - 1]) then (s[|s| - 1] - ZERO) as nat else 0)
  }

  /** Reads back what `Decimal` prints. */
  function DecimalValue(s: GoString): int
  {
    if |s| > 0 && s[0] == MINUS then -(DigitsValue(s[1..]) as int) else DigitsValue(s)
  }

  lemma {:induction false} DigitsRoundTrip(n: nat)
    ensures DigitsValue(Digits(n)) == n
  {
    if n >= 10 {
      var s := Digits(n);
      assert s[..|s| - 1] == Digits(n / 10);
      DigitsRoundTrip(n / 10);
    }
  }

  /** The port printed into a listen address can be read back: distinct ports give distinct addresses. */
  lemma DecimalRoundTrip(n: int)
    ensures DecimalValue(Decimal(n)) == n
  {
    if n < 0 {
      assert Decimal(n)[1..] == Digits(-n);
      DigitsRoundTrip(-n);
    } else {
      assert IsDigit(Digits(n)[0]);
      DigitsRoundTrip(n);
    }
  }
}
