/** The two pieces of Go's text formatting the daemon relies on: rendering an integer
    with `%d` and joining strings with `strings.Join`. */
module Text {
  import opened Wrappers

  function DigitChar(d: nat): (c: char)
    requires d < 10
    ensures '0' <= c <= '9' && c as int - '0' as int == d
  {
    "0123456789"[d]
  }

  predicate IsDigits(s: string) {
    forall i :: 0 <= i < |s| ==> '0' <= s[i] <= '9'
  }

  /** Decimal digits of `n`, most significant first, without leading zeros. */
  function NatToString(n: nat): (s: string)
    ensures |s| >= 1 && IsDigits(s)
    ensures s[0] == '0' ==> n == 0
  {
    if n < 10 then [DigitChar(n)] else NatToString(n / 10) + [DigitChar(n % 10)]
  }

  /** `fmt.Sprintf("%d", n)` for a Go int. */
  function IntToString(n: int): (s: string)
    ensures |s| >= 1
    ensures s[0] == '-' <==> n < 0
  {
    if n < 0 then "-" + NatToString(-n) else NatToString(n)
  }

  /** The value a digit string denotes (the inverse reading of NatToString). */
  function DigitsValue(s: string): nat
    requires IsDigits(s)
  {
    if s == [] then 0
    else DigitsValue(s[..|s| - 1]) * 10 + (s[|s| - 1] as int - '0' as int)
  }

  /** Reads back what IntToString wrote. */
  function ParseInt(s: string): int
    requires |s| >= 1
    requires s[0] == '-' ==> IsDigits(s[1..])
    requires s[0] != '-' ==> IsDigits(s)
  {
    if s[0] == '-' then 0 - DigitsValue(s[1..]) as int else DigitsValue(s)
  }

  lemma {:induction false} NatToStringRoundTrip(n: nat)
    ensures DigitsValue(NatToString(n)) == n
  {
    if n >= 10 {
      NatToStringRoundTrip(n / 10);
      var s := NatToString(n);
      assert s[..|s| - 1] == NatToString(n / 10);
    }
  }

  lemma IntToStringRoundTrip(n: int)
    ensures var s := IntToString(n);
            (s[0] == '-' ==> IsDigits(s[1..])) && (s[0] != '-' ==> IsDigits(s)) &&
            ParseInt(s) == n
  {
    if n < 0 {
      NatToStringRoundTrip(-n);
      assert IntToString(n)[1..] == NatToString(-n);
    } else {
      NatToStringRoundTrip(n);
    }
  }

  /** Reads a `%d` text back, or None when the text is not one. */
  function ReadInt(s: string): Option<int> {
    if |s| >= 1 && (s[0] == '-' ==> IsDigits(s[1..])) && (s[0] != '-' ==> IsDigits(s))
    then Some(ParseInt(s))
    else None
  }

  /** What IntToString writes, ReadInt reads back unchanged. */
  lemma IntToStringReadsBack(n: int)
    ensures ReadInt(IntToString(n)) == Some(n)
  {
    IntToStringRoundTrip(n);
  }

  /** `strings.Join(parts, sep)`: the parts with `sep` between neighbours. */
  function Join(parts: seq<string>, sep: string): (r: string)
    ensures parts == [] ==> r == ""
    ensures |parts| == 1 ==> r == parts[0]
  {
    if parts == [] then ""
    else if |parts| == 1 then parts[0]
    else parts[0] + sep + Join(parts[1..], sep)
  }

  /** Appending one more part extends the joined text by a separator and that part. */
  lemma {:induction false} JoinSnoc(parts: seq<string>, x: string, sep: string)
    ensures Join(parts + [x], sep) == if parts == [] then x else Join(parts, sep) + sep + x
  {
    if |parts| >= 2 {
      assert (parts + [x])[1..] == parts[1..] + [x];
      JoinSnoc(parts[1..], x, sep);
    } else if |parts| == 1 {
      assert (parts + [x])[1..] == [x];
    }
  }

  function StartsWith(s: string, prefix: string): bool {
    |prefix| <= |s| && s[..|prefix|] == prefix
  }

  function EndsWith(s: string, suffix: string): bool {
    |suffix| <= |s| && s[|s| - |suffix|..] == suffix
  }

  /** A join of two or more parts ends with the separator and the last part. */
  lemma JoinEndsWithLast(parts: seq<string>, sep: string)
    requires |parts| >= 2
    ensures EndsWith(Join(parts, sep), sep + parts[|parts| - 1])
  {
    var n := |parts| - 1;
    JoinSnoc(parts[..n], parts[n], sep);
    assert parts[..n] + [parts[n]] == parts;
    var j := Join(parts, sep);
    var t := sep + parts[n];
    assert j == Join(parts[..n], sep) + t;
    assert j[|j| - |t|..] == t;
  }

  lemma EndsWithConcat(a: string, b: string, suffix: string)
    requires EndsWith(b, suffix)
    ensures EndsWith(a + b, suffix)
  {
    assert (a + b)[|a + b| - |suffix|..] == b[|b| - |suffix|..];
  }

  /** A string built as p + n + s + rest starts with both p and p + n + s. */
  lemma OpensWith(p: string, n: string, s: string, rest: string)
    ensures StartsWith(p + n + s + rest, p + n + s)
    ensures StartsWith(p + n + s + rest, p)
  {
    var w := p + n + s + rest;
    assert w[..|p + n + s|] == p + n + s;
    assert w[..|p|] == p;
  }

  /** A string ending in a join ends with the separator and the join's last part. */
  lemma ClosesWithLast(h: string, parts: seq<string>, sep: string)
    requires |parts| >= 2
    ensures EndsWith(h + Join(parts, sep), sep + parts[|parts| - 1])
  {
    JoinEndsWithLast(parts, sep);
    EndsWithConcat(h, Join(parts, sep), sep + parts[|parts| - 1]);
  }
}
