/** Shared vocabulary: optional values, what a JavaScript `throw` carries,
    the result of an awaited call, JavaScript's `||` on strings, and the
    decimal rendering used by template strings such as `${n}`. */
module Core {

  datatype Option<+T> = None | Some(value: T)

  /** A value thrown in JavaScript: an `Error` instance, which carries a
      message, or any other value. */
  datatype Thrown = ErrorInstance(message: string) | OtherValue

  /** What an awaited call gives back: the value it resolved to, or what it threw. */
  datatype Attempt<+T> = Returned(value: T) | Raised(thrown: Thrown)

  /** `e instanceof Error ? e.message : fallback` */
  function MessageOf(e: Thrown, fallback: string): string
  {
    match e
    case ErrorInstance(m) => m
    case OtherValue => fallback
  }

  /** JavaScript `v || fallback` where `v` is a string or undefined: the
      empty string is falsy, like undefined. */
  function StringOr(v: Option<string>, fallback: string): (r: string)
    ensures r == fallback || (v.Some? && r == v.value)
    ensures r != "" <== fallback != ""
    ensures v.Some? && v.value != "" ==> r == v.value
  {
    if v.Some? && v.value != "" then v.value else fallback
  }

  predicate IsDigit(c: char) { '0' <= c <= '9' }

  predicate AllDigits(s: string) { forall i :: 0 <= i < |s| ==> IsDigit(s[i]) }

  function DigitChar(d: nat): (c: char)
    requires d < 10
    ensures IsDigit(c) && c as int - '0' as int == d
  {
    ('0' as int + d) as char
  }

  /** The decimal text JavaScript produces for a non-negative integer
      (`${n}`): at least one digit and no leading zero. */
  function NatToString(n: nat): (s: string)
    ensures |s| >= 1 && AllDigits(s)
    ensures |s| > 1 ==> s[0] != '0'
    decreases n
  {
    if n < 10 then [DigitChar(n)] else NatToString(n / 10) + [DigitChar(n % 10)]
  }

  /** The value of a string of decimal digits; the inverse of NatToString. */
  function DecimalValue(s: string): nat
    requires AllDigits(s)
  {
    if s == [] then 0
    else DecimalValue(s[..|s| - 1]) * 10 + (s[|s| - 1] as int - '0' as int)
  }

  lemma {:induction false} DecimalRoundTrip(n: nat)
    ensures DecimalValue(NatToString(n)) == n
    decreases n
  {
    if n >= 10 {
      var s := NatToString(n);
      assert s[..|s| - 1] == NatToString(n / 10);
      DecimalRoundTrip(n / 10);
    }
  }

  /** Reads back the number in a text `prefix + digits + suffix`. */
  function NumberBetween(s: string, prefix: string, suffix: string): (r: Option<nat>)
    ensures r.Some? ==> exists d :: s == prefix + d + suffix && d != [] && AllDigits(d) && r.value == DecimalValue(d)
  {
    if |s| > |prefix| + |suffix| && s[..|prefix|] == prefix && s[|s| - |suffix|..] == suffix
       && AllDigits(s[|prefix|..|s| - |suffix|])
    then
      assert s == prefix + s[|prefix|..|s| - |suffix|] + suffix;
      Some(DecimalValue(s[|prefix|..|s| - |suffix|]))
    else None
  }

  lemma {:induction false} NumberBetweenRoundTrip(prefix: string, n: nat, suffix: string)
    ensures NumberBetween(prefix + NatToString(n) + suffix, prefix, suffix) == Some(n)
  {
    var d := NatToString(n);
    var s := prefix + d + suffix;
    assert s[..|prefix|] == prefix;
    assert s[|s| - |suffix|..] == suffix;
    assert s[|prefix|..|s| - |suffix|] == d;
    DecimalRoundTrip(n);
  }
}
