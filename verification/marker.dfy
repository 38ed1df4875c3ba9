/**
 * The environment marker of the re-exec path: the parent puts the decimal
 * core id into AFL_LAUNCHER_CLIENT before spawning a copy of itself, and the
 * copy reads it back as a `usize` to learn which core it serves.
 */
module ClientMarker {
  import opened Wrappers
  import opened Topology

  /** Largest `usize` on a 64-bit target. */
  const UsizeMax: nat := 0xFFFF_FFFF_FFFF_FFFF

  /** What looking up AFL_LAUNCHER_CLIENT in the environment yields. */
  datatype EnvVar = NotPresent | Present(value: string) | NotUnicode

  predicate IsDigit(c: char)
  {
    '0' <= c <= '9'
  }

  predicate AllDigits(s: string)
  {
    forall i :: 0 <= i < |s| ==> IsDigit(s[i])
  }

  function DigitChar(d: nat): (c: char)
    requires d < 10
    ensures IsDigit(c)
  {
    ('0' as int + d) as char
  }

  function DigitValue(c: char): nat
    requires IsDigit(c)
  {
    c as int - '0' as int
  }

  /** `id.to_string()`: the decimal numeral of `n`, without leading zeros. */
  function Encode(n: nat): (s: string)
    ensures |s| >= 1
    ensures AllDigits(s)
  {
    if n < 10 then [DigitChar(n)] else Encode(n / 10) + [DigitChar(n % 10)]
  }

  /** The number a string of decimal digits denotes. */
  function Value(s: string): nat
    requires AllDigits(s)
  {
    if |s| == 0 then 0 else Value(s[..|s| - 1]) * 10 + DigitValue(s[|s| - 1])
  }

  /**
   * `<usize as FromStr>::from_str`: an optional leading '+', then one or more
   * decimal digits denoting a value that fits in a `usize`. Anything else is
   * a parse error, which the launcher propagates.
   */
  function Parse(s: string): (r: Result<CoreId, Error>)
    ensures r.Ok? ==> r.value <= UsizeMax
    ensures r.Err? ==> r.error == MalformedMarker
  {
    var digits := if |s| > 0 && s[0] == '+' then s[1..] else s;
    if digits == [] || !AllDigits(digits) then Err(MalformedMarker)
    else if Value(digits) > UsizeMax then Err(MalformedMarker)
    else Ok(Value(digits))
  }

  lemma {:induction false} ValueOfEncode(n: nat)
    ensures Value(Encode(n)) == n
  {
    if n >= 10 {
      ValueOfEncode(n / 10);
      var s := Encode(n);
      assert s[..|s| - 1] == Encode(n / 10);
    }
  }

  /** A child reads back exactly the core id its parent wrote. */
  lemma MarkerRoundTrip(id: CoreId)
    requires id <= UsizeMax
    ensures Parse(Encode(id)) == Ok(id)
  {
    ValueOfEncode(id);
  }

  /** Distinct cores get distinct markers. */
  lemma MarkerInjective(a: CoreId, b: CoreId)
    ensures Encode(a) == Encode(b) ==> a == b
  {
    ValueOfEncode(a);
    ValueOfEncode(b);
  }

  /** A marker that is empty, or whose last character is not a digit, is malformed. */
  lemma MalformedMarkers(s: string)
    requires s == [] || !IsDigit(s[|s| - 1])
    ensures Parse(s) == Err(MalformedMarker)
  {
    var digits := if |s| > 0 && s[0] == '+' then s[1..] else s;
    if digits != [] {
      assert digits[|digits| - 1] == s[|s| - 1];
    }
  }
}
