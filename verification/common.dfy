/** Shared vocabulary: optional values, Python exceptions as values, pygame events,
    the host inputs of one frame, and Python's integer conversions. */
module Common {
  import opened Geometry

  datatype Option<T> = None | Some(value: T)

  /** The Python exceptions the core can raise. */
  datatype Error =
    | KeyError(key: string)
    | ValueError(message: string)
    | TypeError(message: string)
    | AttributeError(message: string)

  /** Completion of a statement that either finishes or raises. */
  datatype Outcome = Pass | Fail(error: Error)

  /** A value or the exception raised instead. */
  datatype Result<T> = Ok(value: T) | Err(error: Error)

  /** pygame events as the scenes see them. `ButtonPressed` is the custom
      button-pressed event carrying the button's name; `ToggleMusic` is the
      custom music event. */
  datatype Event =
    | Quit
    | MouseButtonDown(button: int)
    | MouseButtonUp(button: int)
    | MouseMotion
    | KeyDown(key: int)
    | ButtonPressed(name: string)
    | ToggleMusic

  /** Everything the core reads from the host during one frame: the pygame tick
      clock (ms), the nanosecond performance counter, the mouse position, whether
      the left mouse button is held, and the draw of `randint(-50, 50)` used if a
      pipe pair is spawned. */
  datatype Host = Host(ticks: int, clockNs: int, mouse: Point, leftHeld: bool, pipeOffset: int)

  /** Python's `int(a / b)` for a positive divisor: truncation toward zero. */
  function TruncDiv(a: int, b: int): (q: int)
    requires b > 0
    ensures a >= 0 ==> 0 <= q && q * b <= a < q * b + b
    ensures a < 0 ==> q <= 0 && q * b - b < a <= q * b
  {
    if a >= 0 then
      DivBounds(a, b); a / b
    else
      DivBounds(-a, b); NegatedBounds(-a, (-a) / b, b); -((-a) / b)
  }

  lemma DivBounds(n: nat, b: int)
    requires b > 0
    ensures 0 <= n / b && (n / b) * b <= n < (n / b) * b + b
  {
    var q, r := n / b, n % b;
    assert n == b * q + r && 0 <= r < b;
    assert b * q == q * b;
  }

  lemma NegatedBounds(n: int, q: int, b: int)
    requires b > 0 && 0 <= q && q * b <= n < q * b + b
    ensures -q * b - b < -n <= -q * b
  {
    assert -q * b == -(q * b);
  }

  /** Python's `round(n / 2)`: the nearest integer to n/2, halves going to the even neighbour. */
  function RoundHalf(n: int): (r: int)
    ensures -1 <= 2 * r - n <= 1
    ensures n % 2 == 0 ==> 2 * r == n
    ensures n % 2 != 0 ==> r % 2 == 0
  {
    if n % 2 == 0 then n / 2
    else if (n / 2) % 2 == 0 then n / 2
    else n / 2 + 1
  }

  function Abs(x: int): (r: nat)
    ensures r == x || r == -x
  {
    if x < 0 then -x else x
  }

  function Digit(d: nat): (c: char)
    requires d < 10
    ensures '0' <= c <= '9'
  {
    (('0' as int) + d) as char
  }

  function DigitValue(c: char): (d: nat)
    requires '0' <= c <= '9'
    ensures d < 10 && Digit(d) == c
  {
    (c as int) - ('0' as int)
  }

  /** Python's `str(n)` for a non-negative integer: decimal digits without leading zeros. */
  function NatToString(n: nat): (s: string)
    ensures |s| >= 1
    ensures forall k :: 0 <= k < |s| ==> '0' <= s[k] <= '9'
    ensures s[0] == '0' ==> n == 0
  {
    if n < 10 then [Digit(n)] else NatToString(n / 10) + [Digit(n % 10)]
  }

  /** Reads a string of decimal digits back as a number. */
  function ParseDecimal(s: string): nat
    requires forall k :: 0 <= k < |s| ==> '0' <= s[k] <= '9'
  {
    if |s| == 0 then 0 else 10 * ParseDecimal(s[..|s| - 1]) + DigitValue(s[|s| - 1])
  }

  /** The score text can be read back: `str` loses nothing. */
  lemma {:induction false} NatToStringRoundTrip(n: nat)
    ensures ParseDecimal(NatToString(n)) == n
  {
    var s := NatToString(n);
    if n < 10 {
      assert s == [Digit(n)];
      assert s[..|s| - 1] == [];
    } else {
      NatToStringRoundTrip(n / 10);
      assert s[..|s| - 1] == NatToString(n / 10);
      assert DigitValue(s[|s| - 1]) == n % 10;
    }
  }

  /** Distinct scores are displayed as distinct texts. */
  lemma NatToStringInjective(m: nat, n: nat)
    requires NatToString(m) == NatToString(n)
    ensures m == n
  {
    NatToStringRoundTrip(m);
    NatToStringRoundTrip(n);
  }
}
