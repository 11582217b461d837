// Vocabulary shared by every component: optional values, clock readings,
// identifiers, and the "prefix:number" keys several components build.
module Basics {

  datatype Option<+T> = None | Some(value: T)

  // A clock reading in nanoseconds. The zero time.Time is the value 0.
  type Time = int
  const ZERO_TIME: Time := 0
  const SECOND: int := 1_000_000_000
  const DAY: int := 86_400 * SECOND

  // The White_Space code points that strings.TrimSpace removes.
  predicate IsSpace(c: char) {
    || '\t' <= c <= '\r'
    || c == ' '
    || c == '\U{85}'
    || c == '\U{A0}'
    || c == '\U{1680}'
    || '\U{2000}' <= c <= '\U{200A}'
    || c == '\U{2028}'
    || c == '\U{2029}'
    || c == '\U{202F}'
    || c == '\U{205F}'
    || c == '\U{3000}'
  }

  // An identifier is valid when trimming it leaves something.
  predicate ValidIdentifier(s: string) {
    exists i :: 0 <= i < |s| && !IsSpace(s[i])
  }

  predicate IsDigit(c: char) {
    '0' <= c <= '9'
  }

  function Digit(d: nat): (c: char)
    requires d < 10
    ensures IsDigit(c)
  {
    '0' + d as char
  }

  // How %d prints a natural number.
  function Decimal(n: nat): (s: string)
    ensures |s| > 0
    ensures forall i :: 0 <= i < |s| ==> IsDigit(s[i])
  {
    if n < 10 then [Digit(n)] else Decimal(n / 10) + [Digit(n % 10)]
  }

  // How "%s:%d" prints a prefix and a natural number.
  function Keyed(prefix: string, n: nat): string {
    prefix + ":" + Decimal(n)
  }

  lemma {:induction false} DecimalInjective(a: nat, b: nat)
    requires Decimal(a) == Decimal(b)
    ensures a == b
  {
    var s, t := Decimal(a), Decimal(b);
    assert s[|s| - 1] == Digit(a % 10) && t[|t| - 1] == Digit(b % 10);
    if a < 10 || b < 10 {
      assert |s| == 1 && |t| == 1;
    } else {
      assert s[..|s| - 1] == Decimal(a / 10) && t[..|t| - 1] == Decimal(b / 10);
      DecimalInjective(a / 10, b / 10);
    }
  }

  // The last colon separates the prefix from the number, so the key fixes both,
  // whatever characters the prefixes contain.
  lemma KeyedInjective(p: string, a: nat, q: string, b: nat)
    requires Keyed(p, a) == Keyed(q, b)
    ensures p == q && a == b
  {
    var s, t := Keyed(p, a), Keyed(q, b);
    assert !IsDigit(s[|p|]) && !IsDigit(t[|q|]);
    assert forall i :: |p| < i < |s| ==> IsDigit(s[i]);
    assert forall i :: |q| < i < |t| ==> IsDigit(t[i]);
    assert p == s[..|p|] == t[..|q|] == q;
    assert Decimal(a) == s[|p| + 1..] == t[|q| + 1..] == Decimal(b);
    DecimalInjective(a, b);
  }

  // The first colon of "prefix:rest", or the last, separates the two for good when
  // the part before it, or behind it, has none.
  lemma ColonEnds(p: string, a: string, q: string, b: string)
    requires forall i :: 0 <= i < |p| ==> p[i] != ':'
    requires forall i :: 0 <= i < |q| ==> q[i] != ':'
    requires p + ":" + a == q + ":" + b
    ensures p == q && a == b
  {
    var s, t := p + ":" + a, q + ":" + b;
    assert s[|p|] == ':' && t[|q|] == ':';
    assert forall i :: 0 <= i < |p| ==> s[i] != ':';
    assert forall i :: 0 <= i < |q| ==> t[i] != ':';
    assert p == s[..|p|] == t[..|q|] == q;
    assert a == s[|p| + 1..] == t[|q| + 1..] == b;
  }

  lemma ColonStarts(a: string, p: string, b: string, q: string)
    requires forall i :: 0 <= i < |p| ==> p[i] != ':'
    requires forall i :: 0 <= i < |q| ==> q[i] != ':'
    requires a + ":" + p == b + ":" + q
    ensures a == b && p == q
  {
    var s, t := a + ":" + p, b + ":" + q;
    assert s[|a|] == ':' && t[|b|] == ':';
    assert forall i :: |a| < i < |s| ==> s[i] != ':';
    assert forall i :: |b| < i < |t| ==> t[i] != ':';
    assert a == s[..|a|] == t[..|b|] == b;
    assert p == s[|a| + 1..] == t[|b| + 1..] == q;
  }
}
