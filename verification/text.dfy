/** The few pieces of `java.lang.String` behaviour the harness relies on:
    how `+` renders a null reference, ASCII case folding, `contains`,
    `String.join`, and decimal rendering of an `int`. */
module Text {
  import opened Base

  /** How Java's `+` renders a possibly-null String: null becomes "null". */
  function Show(s: Option<string>): (r: string)
    ensures s.Some? ==> r == s.value
    ensures s.None? ==> r == "null"
  {
    match s
    case Some(v) => v
    case None => "null"
  }

  // ---------------------------------------------------------------------
  // Case folding (ASCII letters only)

  function UpperChar(c: char): char {
    if 'a' <= c <= 'z' then (c as int - 32) as char else c
  }

  function LowerChar(c: char): char {
    if 'A' <= c <= 'Z' then (c as int + 32) as char else c
  }

  /** `String.toUpperCase()` restricted to ASCII letters. */
  function Upper(s: string): (r: string)
    ensures |r| == |s|
  {
    seq(|s|, i requires 0 <= i < |s| => UpperChar(s[i]))
  }

  /** `String.toLowerCase()` restricted to ASCII letters. */
  function Lower(s: string): (r: string)
    ensures |r| == |s|
  {
    seq(|s|, i requires 0 <= i < |s| => LowerChar(s[i]))
  }

  /** `String.equalsIgnoreCase` restricted to ASCII letters. */
  predicate EqualsIgnoreCase(a: string, b: string) {
    |a| == |b| && forall i :: 0 <= i < |a| ==> UpperChar(a[i]) == UpperChar(b[i])
  }

  /** Strings that are equal ignoring case have the same upper-case form. */
  lemma EqualsIgnoreCaseSameUpper(a: string, b: string)
    requires EqualsIgnoreCase(a, b)
    ensures Upper(a) == Upper(b)
  {
  }

  /** Lower-casing a string does not change its upper-case form. */
  lemma UpperOfLower(s: string)
    ensures Upper(Lower(s)) == Upper(s)
  {
    assert forall i :: 0 <= i < |s| ==> UpperChar(LowerChar(s[i])) == UpperChar(s[i]);
  }

  // ---------------------------------------------------------------------
  // Substrings

  /** `t` occurs in `s` starting at index `k`. */
  predicate IsInfixAt(s: string, t: string, k: int) {
    0 <= k && k + |t| <= |s| && s[k..k + |t|] == t
  }

  /** When `t` is not a prefix of `s`, it occurs in `s` exactly when it
      occurs in the tail of `s`. */
  lemma InfixInTail(s: string, t: string)
    requires |t| <= |s| && s[..|t|] != t
    ensures (exists k :: IsInfixAt(s, t, k)) <==> (exists k :: IsInfixAt(s[1..], t, k))
  {
    if k :| IsInfixAt(s, t, k) {
      assert k != 0;
      ShiftedInfix(s, t, k - 1);
    }
    if k :| IsInfixAt(s[1..], t, k) {
      ShiftedInfix(s, t, k);
    }
  }

  lemma ShiftedInfix(s: string, t: string, k: int)
    requires |s| > 0 && 0 <= k
    ensures IsInfixAt(s[1..], t, k) <==> IsInfixAt(s, t, k + 1)
  {
    if k + 1 + |t| <= |s| {
      var a := s[k + 1..k + 1 + |t|];
      var b := s[1..][k..k + |t|];
      assert forall j :: 0 <= j < |t| ==> a[j] == b[j];
      assert a == b;
    }
  }

  /** `String.contains`: some occurrence of `t` starts somewhere in `s`. */
  function Contains(s: string, t: string): (b: bool)
    ensures b <==> exists k :: IsInfixAt(s, t, k)
    decreases |s|
  {
    if |t| > |s| then false
    else if s[..|t|] == t then assert IsInfixAt(s, t, 0); true
    else
      InfixInTail(s, t);
      Contains(s[1..], t)
  }

  /** Any character of an occurring string is a character of the whole. */
  lemma ContainsKeepsChars(s: string, t: string, j: int)
    requires Contains(s, t)
    requires 0 <= j < |t|
    ensures t[j] in s
  {
    var k :| IsInfixAt(s, t, k);
    assert s[k + j] == t[j];
  }

  // ---------------------------------------------------------------------
  // Decimal numbers

  predicate IsDigit(c: char) {
    '0' <= c <= '9'
  }

  predicate AllDigits(s: string) {
    forall i :: 0 <= i < |s| ==> IsDigit(s[i])
  }

  function DigitChar(d: nat): (c: char)
    requires d < 10
    ensures IsDigit(c)
  {
    ('0' as int + d) as char
  }

  function DigitValue(c: char): nat
    requires IsDigit(c)
  {
    c as int - '0' as int
  }

  /** The value of a string of decimal digits, most significant first. */
  function DigitsValue(s: string): nat
    requires AllDigits(s)
  {
    if |s| == 0 then 0
    else DigitsValue(s[..|s| - 1]) * 10 + DigitValue(s[|s| - 1])
  }

  /** Decimal rendering of a natural number, without leading zeros. */
  function NatToString(n: nat): (s: string)
    ensures |s| >= 1 && AllDigits(s)
    ensures |s| > 1 ==> s[0] != '0'
    decreases n
  {
    if n < 10 then [DigitChar(n)]
    else NatToString(n / 10) + [DigitChar(n % 10)]
  }

  /** `Integer.toString` / `StringBuilder.append(int)`. */
  function IntToString(n: int): (s: string)
    ensures |s| >= 1
    ensures n >= 0 ==> AllDigits(s)
    ensures n < 0 ==> s[0] == '-' && AllDigits(s[1..])
  {
    if n < 0 then "-" + NatToString(-n) else NatToString(n)
  }

  /** Reading back a rendered natural number gives the number. */
  lemma {:induction false} NatToStringValue(n: nat)
    ensures DigitsValue(NatToString(n)) == n
    decreases n
  {
    var s := NatToString(n);
    if n < 10 {
      assert s[..|s| - 1] == [];
    } else {
      NatToStringValue(n / 10);
      assert s[..|s| - 1] == NatToString(n / 10);
    }
  }

  // ---------------------------------------------------------------------
  // Joining and splitting

  /** `String.join(sep, parts)`: the parts in order with `sep` between
      neighbours and nothing before the first or after the last. */
  function Join(sep: string, parts: seq<string>): string
    decreases |parts|
  {
    if |parts| == 0 then ""
    else if |parts| == 1 then parts[0]
    else parts[0] + sep + Join(sep, parts[1..])
  }

  /** Appending a part adds one separator, except to an empty list. */
  lemma {:induction false} JoinSnoc(sep: string, parts: seq<string>, x: string)
    ensures Join(sep, parts + [x]) == if |parts| == 0 then x else Join(sep, parts) + sep + x
    decreases |parts|
  {
    if |parts| == 0 {
      assert parts + [x] == [x];
    } else if |parts| == 1 {
      assert (parts + [x])[1..] == [x];
    } else {
      assert (parts + [x])[1..] == parts[1..] + [x];
      JoinSnoc(sep, parts[1..], x);
    }
  }

  /** The summed lengths of the parts. */
  function TotalLength(parts: seq<string>): nat
    decreases |parts|
  {
    if |parts| == 0 then 0 else |parts[0]| + TotalLength(parts[1..])
  }

  /** A join of n parts holds the parts and exactly n - 1 separators. */
  lemma {:induction false} JoinLength(sep: string, parts: seq<string>)
    requires |parts| >= 1
    ensures |Join(sep, parts)| == TotalLength(parts) + |sep| * (|parts| - 1)
    decreases |parts|
  {
    if |parts| > 1 {
      JoinLength(sep, parts[1..]);
      assert |sep| * (|parts| - 1) == |sep| + |sep| * (|parts[1..]| - 1);
    }
  }

  /** Splitting on one separator character, keeping empty pieces: the
      inverse a server applies to a `String.join` list. */
  function Split(s: string, c: char): (parts: seq<string>)
    ensures |parts| >= 1
    decreases |s|
  {
    if |s| == 0 then [""]
    else
      var rest := Split(s[1..], c);
      if s[0] == c then [""] + rest
      else [[s[0]] + rest[0]] + rest[1..]
  }

  lemma {:induction false} SplitWithoutSeparator(x: string, c: char)
    requires c !in x
    ensures Split(x, c) == [x]
    decreases |x|
  {
    if |x| > 0 {
      SplitWithoutSeparator(x[1..], c);
      assert [x[0]] + x[1..] == x;
    }
  }

  lemma {:induction false} SplitAtFirstSeparator(x: string, c: char, s: string)
    requires c !in x
    ensures Split(x + [c] + s, c) == [x] + Split(s, c)
    decreases |x|
  {
    if |x| == 0 {
      assert x + [c] + s == [c] + s;
      assert ([c] + s)[1..] == s;
    } else {
      var w := x + [c] + s;
      assert w[0] == x[0];
      assert w[1..] == x[1..] + [c] + s;
      SplitAtFirstSeparator(x[1..], c, s);
      assert [x[0]] + x[1..] == x;
    }
  }

  /** Joining on a character that no part contains, then splitting on it,
      gives back the parts. */
  lemma {:induction false} SplitJoin(parts: seq<string>, c: char)
    requires |parts| >= 1
    requires forall i :: 0 <= i < |parts| ==> c !in parts[i]
    ensures Split(Join([c], parts), c) == parts
    decreases |parts|
  {
    if |parts| == 1 {
      SplitWithoutSeparator(parts[0], c);
    } else {
      SplitJoin(parts[1..], c);
      SplitAtFirstSeparator(parts[0], c, Join([c], parts[1..]));
      assert [parts[0]] + parts[1..] == parts;
    }
  }
}
