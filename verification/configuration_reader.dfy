/** Typed lookups over the harness's loaded configuration properties. The
    property file is assumed already loaded into a map from key to value. */
module ConfigurationReader {
  import opened Base
  import opened Text

  /** The loaded `configuration.properties`. */
  type Properties = map<string, string>

  const MIN_INT: int := -0x8000_0000
  const MAX_INT: int := 0x7fff_ffff

  /** The range of a Java `int`. */
  predicate IsInt32(n: int) {
    MIN_INT <= n <= MAX_INT
  }

  /** A numeral without its optional leading sign. */
  function Unsigned(s: string): string {
    if |s| >= 1 && (s[0] == '-' || s[0] == '+') then s[1..] else s
  }

  /** An optional sign followed by at least one decimal digit. */
  predicate IsNumeral(s: string) {
    |Unsigned(s)| >= 1 && AllDigits(Unsigned(s))
  }

  /** The integer a numeral denotes, of any magnitude. */
  function NumeralValue(s: string): int
    requires IsNumeral(s)
  {
    if s[0] == '-' then -(DigitsValue(Unsigned(s)) as int) else DigitsValue(Unsigned(s))
  }

  /** `Integer.parseInt(s)`: an optional `+` or `-`, then at least one
      decimal digit, denoting a value in the `int` range; anything else,
      an out-of-range numeral included, throws NumberFormatException (here
      `None`). */
  function ParseInt(s: string): (r: Option<int>)
    ensures r.Some? <==> IsNumeral(s) && IsInt32(NumeralValue(s))
    ensures r.Some? ==> r.value == NumeralValue(s)
    ensures r.Some? ==> IsInt32(r.value)
  {
    if |s| == 0 then None
    else
      var digits := if s[0] == '-' || s[0] == '+' then s[1..] else s;
      if |digits| == 0 || !AllDigits(digits) then None
      else
        var value: int := DigitsValue(digits);
        var n := if s[0] == '-' then -value else value;
        if IsInt32(n) then Some(n) else None
  }

  /** Every `int` survives a trip through its decimal rendering. */
  lemma ParseIntRoundTrip(n: int)
    requires IsInt32(n)
    ensures ParseInt(IntToString(n)) == Some(n)
  {
    if n < 0 {
      NatToStringValue(-n);
      ParseIntOfNegative(NatToString(-n));
    } else {
      NatToStringValue(n);
      ParseIntOfDigits(NatToString(n));
    }
  }

  /** Digits alone denote their value. */
  lemma ParseIntOfDigits(d: string)
    requires |d| >= 1 && AllDigits(d) && IsInt32(DigitsValue(d))
    ensures ParseInt(d) == Some(DigitsValue(d))
  {
    assert IsDigit(d[0]);
  }

  /** A minus sign before digits negates their value. */
  lemma ParseIntOfNegative(d: string)
    requires |d| >= 1 && AllDigits(d) && IsInt32(-(DigitsValue(d) as int))
    ensures ParseInt("-" + d) == Some(-(DigitsValue(d) as int))
  {
    assert ("-" + d)[1..] == d;
  }

  /** A digit string parses exactly when its value fits an `int`, and a
      minus sign before it exactly when the negated value does: the
      numeral one past either end of the range is rejected. */
  lemma ParseIntRejectsOverflow(n: nat)
    ensures ParseInt(NatToString(n)) == (if n <= MAX_INT then Some(n) else None)
    ensures ParseInt("-" + NatToString(n)) == (if n <= -MIN_INT then Some(-(n as int)) else None)
  {
    NatToStringValue(n);
    assert Unsigned("-" + NatToString(n)) == NatToString(n);
  }

  /** A leading `+` is accepted and changes nothing. */
  lemma ParseIntIgnoresPlusSign(d: string)
    requires |d| >= 1 && AllDigits(d)
    ensures ParseInt("+" + d) == ParseInt(d)
  {
    assert ("+" + d)[1..] == d;
  }

  /** `get(key)`: the value, or null when the key is absent. */
  function Get(props: Properties, key: string): (r: Option<string>)
    ensures r.Some? <==> key in props
    ensures r.Some? ==> r.value == props[key]
  {
    if key in props then Some(props[key]) else None
  }

  /** `get(key, default)`: the value, or `default` when the key is absent. */
  function GetOr(props: Properties, key: string, default: string): (r: string)
    ensures key in props ==> r == props[key]
    ensures key !in props ==> r == default
  {
    match Get(props, key)
    case Some(v) => v
    case None => default
  }

  /** `hasProperty(key)`: whether the key was loaded, whatever its value. */
  function HasProperty(props: Properties, key: string): (b: bool)
    ensures b <==> Get(props, key).Some?
    ensures b ==> key in props && GetOr(props, key, "") == props[key]
  {
    key in props
  }

  /** A key has a property exactly when `get` does not return null. */
  lemma HasPropertyIffGetNonNull(props: Properties, key: string)
    ensures HasProperty(props, key) <==> Get(props, key).Some?
  {
  }

  /** The default of `get(key, default)` is observable only for a missing key. */
  lemma GetOrDefaultOnlyWhenMissing(props: Properties, key: string, d1: string, d2: string)
    requires d1 != d2
    ensures GetOr(props, key, d1) != GetOr(props, key, d2) <==> !HasProperty(props, key)
  {
  }

  /** `getInt(key)`: IllegalArgumentException for a missing key,
      NumberFormatException for a value that is not an `int`. */
  function GetInt(props: Properties, key: string): (r: Result<int>)
    ensures !HasProperty(props, key) ==> r == Err(IllegalArgument("Property '" + key + "' not found"))
    ensures HasProperty(props, key) ==> (r.Ok? <==> ParseInt(props[key]).Some?)
    ensures r.Ok? ==> ParseInt(props[key]) == Some(r.value)
    ensures r.Err? ==> r.failure.IsException()
    ensures r.Err? && HasProperty(props, key) ==> r.failure.NumberFormat?
  {
    match Get(props, key)
    case None => Err(IllegalArgument("Property '" + key + "' not found"))
    case Some(v) =>
      match ParseInt(v)
      case Some(n) => Ok(n)
      case None => Err(NumberFormat("Property '" + key + "' value '" + v + "' is not a valid integer"))
  }

  /** Storing the rendering of an `int` and reading it back with `getInt`
      gives the `int`. */
  lemma GetIntReadsBackStoredInt(props: Properties, key: string, n: int)
    requires IsInt32(n)
    ensures GetInt(props[key := IntToString(n)], key) == Ok(n)
  {
    ParseIntRoundTrip(n);
  }

  /** `getInt(key, default)`: the parsed value when `getInt` succeeds, the
      default on any exception it throws. */
  function GetIntOr(props: Properties, key: string, default: int): (r: int)
    ensures GetInt(props, key).Ok? ==> r == GetInt(props, key).value
    ensures GetInt(props, key).Err? ==> r == default
  {
    match GetInt(props, key)
    case Ok(n) => n
    case Err(_) => default  // every failure of GetInt is an Exception, so the catch takes it
  }

  /** `Boolean.parseBoolean`: true exactly for a non-null "true" in any case.
      A helper of `GetBoolean`, whose contract states what it decides. */
  predicate ParseBoolean(s: Option<string>) {
    s.Some? && EqualsIgnoreCase(s.value, "true")
  }

  /** `getBoolean(key)`: IllegalArgumentException for a missing key, otherwise
      whether the value is "true" ignoring case. */
  function GetBoolean(props: Properties, key: string): (r: Result<bool>)
    ensures r.Err? <==> !HasProperty(props, key)
    ensures r.Err? ==> r.failure == IllegalArgument("Property '" + key + "' not found")
    ensures r.Ok? ==> (r.value <==> EqualsIgnoreCase(props[key], "true"))
  {
    match Get(props, key)
    case None => Err(IllegalArgument("Property '" + key + "' not found"))
    case Some(v) => Ok(ParseBoolean(Some(v)))
  }

  /** `getBoolean(key, default)`: the default for a missing key; a present
      value that is not "true" yields false, never the default. */
  function GetBooleanOr(props: Properties, key: string, default: bool): (r: bool)
    ensures !HasProperty(props, key) ==> r == default
    ensures HasProperty(props, key) ==> (r <==> EqualsIgnoreCase(props[key], "true"))
  {
    match GetBoolean(props, key)
    case Ok(b) => b
    case Err(_) => default
  }

  /** The two defaults of `getBoolean(key, default)` give different answers
      exactly when the key is missing. */
  lemma GetBooleanDefaultOnlyWhenMissing(props: Properties, key: string)
    ensures GetBooleanOr(props, key, true) != GetBooleanOr(props, key, false) <==> !HasProperty(props, key)
  {
  }

  /** The same holds for `getInt(key, default)`, whose default shows through
      on a missing key and on a malformed value alike. */
  lemma GetIntDefaultOnFailure(props: Properties, key: string, d1: int, d2: int)
    requires d1 != d2
    ensures GetIntOr(props, key, d1) != GetIntOr(props, key, d2)
            <==> (!HasProperty(props, key) || ParseInt(props[key]).None?)
  {
  }
}
