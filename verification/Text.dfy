/**
 Decimal rendering and parsing, and the newline-separated record used as a hash
 preimage: the textual encodings whose injectivity the identity proofs rest on.
 */
module Text {
  import opened Values

  const INT64_MAX: int := 0x7fff_ffff_ffff_ffff

  function Digit(d: nat): char
    requires d < 10
  {
    '0' + d as char
  }

  function DigitValue(c: char): nat {
    if '0' <= c <= '9' then (c as int) - ('0' as int) else 0
  }

  predicate AllDigits(s: string) {
    forall i :: 0 <= i < |s| ==> '0' <= s[i] <= '9'
  }

  /** Decimal digits, most significant first, without leading zeros. */
  function Decimal(n: nat): (s: string)
    ensures s != [] && AllDigits(s)
  {
    if n < 10 then [Digit(n)] else Decimal(n / 10) + [Digit(n % 10)]
  }

  /** The number a string of decimal digits denotes. */
  function Value(s: string): nat {
    if s == [] then 0 else 10 * Value(s[..|s| - 1]) + DigitValue(s[|s| - 1])
  }

  lemma {:induction false} ValueOfDecimal(n: nat)
    ensures Value(Decimal(n)) == n
  {
    if 10 <= n {
      ValueOfDecimal(n / 10);
      assert Decimal(n)[..|Decimal(n)| - 1] == Decimal(n / 10);
    }
  }

  /** strconv.FormatInt in base ten. */
  function FormatInt(x: int): string {
    if x < 0 then "-" + Decimal(-x) else Decimal(x)
  }

  /** The number a signed decimal string denotes. */
  function SignedValue(s: string): int {
    if s != [] && s[0] == '-' then 0 - Value(s[1..])
    else if s != [] && s[0] == '+' then Value(s[1..])
    else Value(s)
  }

  lemma {:induction false} SignedValueOfFormat(x: int)
    ensures SignedValue(FormatInt(x)) == x
  {
    if x < 0 {
      var d := Decimal(-x);
      ValueOfDecimal(-x);
      assert ("-" + d)[1..] == d;
    } else {
      ValueOfDecimal(x);
      var d := Decimal(x);
      assert '0' <= d[0] <= '9';
    }
  }

  lemma FormatIntInjective(x: int, y: int)
    requires FormatInt(x) == FormatInt(y)
    ensures x == y
  {
    SignedValueOfFormat(x);
    SignedValueOfFormat(y);
  }

  /** strconv.ParseInt(s, 10, 64): an optional sign, at least one digit, and the 64-bit range. */
  function ParseInt(s: string): Option<int> {
    var digits := if s != [] && (s[0] == '-' || s[0] == '+') then s[1..] else s;
    if digits == [] || !AllDigits(digits) then None
    else if -INT64_MAX - 1 <= SignedValue(s) <= INT64_MAX then Some(SignedValue(s))
    else None
  }

  lemma {:induction false} ParseOfFormat(x: int)
    requires -INT64_MAX - 1 <= x <= INT64_MAX
    ensures ParseInt(FormatInt(x)) == Some(x)
  {
    SignedValueOfFormat(x);
    var d := Decimal(if x < 0 then -x else x);
    if x < 0 {
      assert ("-" + d)[1..] == d;
    } else {
      assert '0' <= d[0] <= '9';
    }
  }

  // ---- Splitting at the first separator ----

  /** strings.Cut: the text before and after the first occurrence of `c`. */
  function Cut(s: string, c: char): Option<(string, string)> {
    if s == [] then None
    else if s[0] == c then Some(([], s[1..]))
    else match Cut(s[1..], c)
      case None => None
      case Some((before, after)) => Some(([s[0]] + before, after))
  }

  lemma {:induction false} CutOfJoin(before: string, c: char, after: string)
    requires c !in before
    ensures Cut(before + [c] + after, c) == Some((before, after))
  {
    var s := before + [c] + after;
    if before == [] {
      assert s[0] == c && s[1..] == after;
    } else {
      assert s[0] == before[0] && s[1..] == before[1..] + [c] + after;
      CutOfJoin(before[1..], c, after);
      assert [before[0]] + before[1..] == before;
    }
  }

  // ---- Terminated records ----

  /** Each field followed by the separator. */
  function Terminated(sep: char, fields: seq<string>): string {
    if fields == [] then "" else fields[0] + [sep] + Terminated(sep, fields[1..])
  }

  lemma {:induction false} TerminatedInjective(sep: char, f: seq<string>, g: seq<string>)
    requires forall i :: 0 <= i < |f| ==> sep !in f[i]
    requires forall i :: 0 <= i < |g| ==> sep !in g[i]
    requires Terminated(sep, f) == Terminated(sep, g)
    ensures f == g
  {
    if f != [] && g != [] {
      CutOfJoin(f[0], sep, Terminated(sep, f[1..]));
      CutOfJoin(g[0], sep, Terminated(sep, g[1..]));
      TerminatedInjective(sep, f[1..], g[1..]);
      assert f == [f[0]] + f[1..] && g == [g[0]] + g[1..];
    }
  }

  lemma {:induction false} FormatIntHasNo(sep: char, x: int)
    requires sep != '-' && !('0' <= sep <= '9')
    ensures sep !in FormatInt(x)
  {
    var d := Decimal(if x < 0 then -x else x);
    assert forall i :: 0 <= i < |d| ==> '0' <= d[i] <= '9';
  }

  // ---- Byte-wise string order ----

  predicate LexLe(a: string, b: string) {
    a == [] || (b != [] && (a[0] < b[0] || (a[0] == b[0] && LexLe(a[1..], b[1..]))))
  }

  lemma {:induction false} LexTotal(a: string, b: string)
    ensures LexLe(a, b) || LexLe(b, a)
    ensures LexLe(a, b) && LexLe(b, a) ==> a == b
  {
    if a != [] && b != [] && a[0] == b[0] {
      LexTotal(a[1..], b[1..]);
      assert a == [a[0]] + a[1..] && b == [b[0]] + b[1..];
    }
  }

  lemma {:induction false} LexTransitive(a: string, b: string, c: string)
    requires LexLe(a, b) && LexLe(b, c)
    ensures LexLe(a, c)
  {
    if a != [] && b != [] && c != [] && a[0] == b[0] == c[0] {
      LexTransitive(a[1..], b[1..], c[1..]);
    }
  }
}
