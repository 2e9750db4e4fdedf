/**
 * Python string primitives the bot relies on, stated over `seq<char>`:
 * whitespace stripping, decimal digits, substring search, `split`.
 */
module Text {
  import opened Options

  /** Python's `str.isspace()`: the characters `str.strip()` removes. */
  predicate IsSpace(c: char) {
    ('\t' <= c <= '\r') || ('\U{1C}' <= c <= '\U{1F}') || c == ' ' || c == '\U{85}' || c == '\U{A0}'
    || c == '\U{1680}' || ('\U{2000}' <= c <= '\U{200A}') || c == '\U{2028}' || c == '\U{2029}'
    || c == '\U{202F}' || c == '\U{205F}' || c == '\U{3000}'
  }

  predicate AllSpace(s: string) {
    forall i :: 0 <= i < |s| ==> IsSpace(s[i])
  }

  /** Python's `str.strip()` without arguments: whitespace is dropped from both ends. */
  function Strip(s: string): (r: string)
    ensures |r| <= |s|
    ensures r == [] || (!IsSpace(r[0]) && !IsSpace(r[|r| - 1]))
    decreases |s|
  {
    if |s| > 0 && IsSpace(s[0]) then Strip(s[1..])
    else if |s| > 0 && IsSpace(s[|s| - 1]) then Strip(s[..|s| - 1])
    else s
  }

  /** Stripping removes exactly the whitespace around the text. */
  lemma StripSurrounded(lead: string, t: string, trail: string)
    requires AllSpace(lead) && AllSpace(trail)
    requires t == [] || (!IsSpace(t[0]) && !IsSpace(t[|t| - 1]))
    ensures Strip(lead + t + trail) == t
  {
    assert lead + t + trail == lead + (t + trail);
    StripLeading(lead, t + trail);
    if t == [] {
      assert t + trail == trail;
      StripEmptyIff(trail);
    } else {
      StripTrailing(t, trail);
    }
  }

  /** Whitespace in front is dropped, whatever follows it. */
  lemma {:induction false} StripLeading(lead: string, x: string)
    requires AllSpace(lead)
    ensures Strip(lead + x) == Strip(x)
    decreases |lead|
  {
    if |lead| > 0 {
      var s := lead + x;
      assert s[0] == lead[0];
      assert s[1..] == lead[1..] + x;
      StripLeading(lead[1..], x);
    } else {
      assert lead + x == x;
    }
  }

  /** Whitespace behind text that starts and ends with a non-space character is dropped. */
  lemma {:induction false} StripTrailing(t: string, trail: string)
    requires AllSpace(trail) && t != [] && !IsSpace(t[0]) && !IsSpace(t[|t| - 1])
    ensures Strip(t + trail) == t
    decreases |trail|
  {
    var s := t + trail;
    assert s[0] == t[0];
    if |trail| > 0 {
      assert s[|s| - 1] == trail[|trail| - 1];
      assert s[..|s| - 1] == t + trail[..|trail| - 1];
      StripTrailing(t, trail[..|trail| - 1]);
    } else {
      assert s == t;
    }
  }

  /** Text that neither starts nor ends with whitespace is its own stripped form. */
  lemma StripUnchanged(s: string)
    requires s == [] || (!IsSpace(s[0]) && !IsSpace(s[|s| - 1]))
    ensures Strip(s) == s
  {
    StripSurrounded([], s, []);
    assert [] + s + [] == s;
  }

  /** Text without any whitespace is its own stripped form. */
  lemma StripNoSpace(s: string)
    requires forall i :: 0 <= i < |s| ==> !IsSpace(s[i])
    ensures Strip(s) == s
  {
    StripUnchanged(s);
  }

  /** Text that starts with a non-space character does not strip to nothing. */
  lemma {:induction false} StripKeepsNonSpace(s: string)
    requires |s| > 0 && !IsSpace(s[0])
    ensures Strip(s) != []
    decreases |s|
  {
    if IsSpace(s[|s| - 1]) {
      StripKeepsNonSpace(s[..|s| - 1]);
    }
  }

  /** Text strips to nothing exactly when it is all whitespace. */
  lemma {:induction false} StripEmptyIff(s: string)
    ensures Strip(s) == [] <==> AllSpace(s)
    decreases |s|
  {
    if |s| > 0 && IsSpace(s[0]) {
      StripEmptyIff(s[1..]);
      assert AllSpace(s) <==> AllSpace(s[1..]) by {
        if AllSpace(s[1..]) {
          forall i | 0 < i < |s| ensures IsSpace(s[i]) {
            assert s[i] == s[1..][i - 1];
          }
        }
      }
    } else if |s| > 0 {
      StripKeepsNonSpace(s);
    }
  }

  lemma StripIdempotent(s: string)
    ensures Strip(Strip(s)) == Strip(s)
  {
    StripUnchanged(Strip(s));
  }

  predicate IsAsciiDigit(c: char) { '0' <= c <= '9' }

  /**
   * The decimal digits recognised by Python's `int()` and by the regular-expression
   * class `\d`, restricted to the ASCII, Arabic-Indic and Extended Arabic-Indic
   * (Persian) blocks.
   */
  predicate IsDecimal(c: char) {
    IsAsciiDigit(c) || ('\U{0660}' <= c <= '\U{0669}') || ('\U{06F0}' <= c <= '\U{06F9}')
  }

  function DigitValue(c: char): (v: nat)
    requires IsDecimal(c)
    ensures v <= 9
  {
    if IsAsciiDigit(c) then c as int - '0' as int
    else if c <= '\U{0669}' then c as int - 0x0660
    else c as int - 0x06F0
  }

  predicate AllDecimal(s: string) {
    forall i :: 0 <= i < |s| ==> IsDecimal(s[i])
  }

  /** The number a string of decimal digits denotes (most significant digit first). */
  function Value(s: string): nat
    requires AllDecimal(s)
  {
    if s == [] then 0 else 10 * Value(s[..|s| - 1]) + DigitValue(s[|s| - 1])
  }

  function Digit(d: nat): (c: char)
    requires d <= 9
    ensures IsAsciiDigit(c) && DigitValue(c) == d
  {
    (48 + d) as char
  }

  /** Python's `str(n)` for a non-negative integer. */
  function NatToString(n: nat): (r: string)
    ensures |r| > 0 && forall i :: 0 <= i < |r| ==> IsAsciiDigit(r[i])
  {
    if n < 10 then [Digit(n)] else NatToString(n / 10) + [Digit(n % 10)]
  }

  /** Python's `str(i)` for an integer. */
  function IntToString(i: int): (r: string)
    ensures |r| > 0
  {
    if i < 0 then "-" + NatToString(-i) else NatToString(i)
  }

  /** The decimal rendering reads back as the number it renders. */
  lemma {:induction false} ValueOfNatToString(n: nat)
    ensures AllDecimal(NatToString(n)) && Value(NatToString(n)) == n
  {
    var s := NatToString(n);
    if n >= 10 {
      ValueOfNatToString(n / 10);
      assert s[..|s| - 1] == NatToString(n / 10);
    }
  }

  /** The rendering of a four-digit number, digit by digit. */
  lemma FourDigits(n: nat)
    requires 1000 <= n < 10000
    ensures NatToString(n) == [Digit(n / 1000), Digit(n / 100 % 10), Digit(n / 10 % 10), Digit(n % 10)]
  {
    assert n / 10 / 10 == n / 100 && n / 100 / 10 == n / 1000;
    assert NatToString(n / 10) == NatToString(n / 100) + [Digit(n / 10 % 10)];
    assert NatToString(n / 100) == NatToString(n / 1000) + [Digit(n / 100 % 10)];
  }

  predicate OccursAt(s: string, t: string, i: nat) {
    i + |t| <= |s| && s[i..i + |t|] == t
  }

  /** Python's `t in s` for two strings. */
  predicate Contains(s: string, t: string) {
    exists i :: 0 <= i <= |s| && OccursAt(s, t, i)
  }

  /** A string contains each of its prefixes. */
  lemma ContainsPrefix(t: string, rest: string)
    ensures Contains(t + rest, t)
  {
    assert OccursAt(t + rest, t, 0);
  }

  /** The first position at or after i where t occurs in s. */
  function FindFrom(s: string, t: string, i: nat): (r: Option<nat>)
    requires i <= |s|
    decreases |s| - i
    ensures r.Some? ==> i <= r.value <= |s| && OccursAt(s, t, r.value)
                        && forall j :: i <= j < r.value ==> !OccursAt(s, t, j)
    ensures r.None? ==> forall j :: i <= j <= |s| ==> !OccursAt(s, t, j)
  {
    if OccursAt(s, t, i) then Some(i) else if i == |s| then None else FindFrom(s, t, i + 1)
  }

  /** Python's `s.split(t)[0]`: the text before the first occurrence of t, or all of s. */
  function Before(s: string, t: string): (r: string)
    requires |t| > 0
    ensures |r| <= |s| && r == s[..|r|]
    ensures Contains(s, t) <==> |r| < |s|
  {
    match FindFrom(s, t, 0)
    case Some(i) => s[..i]
    case None => s
  }

  /** Python's `s.split(sep)` for a one-character separator. */
  function Split(s: string, sep: char): (parts: seq<string>)
    ensures |parts| >= 1
    decreases |s|
  {
    if s == [] then [""]
    else
      var rest := Split(s[1..], sep);
      if s[0] == sep then [""] + rest else [[s[0]] + rest[0]] + rest[1..]
  }

  /** Python's `sep.join(parts)`. */
  function Join(parts: seq<string>, sep: char): string {
    if |parts| == 0 then "" else if |parts| == 1 then parts[0]
    else parts[0] + [sep] + Join(parts[1..], sep)
  }

  lemma {:induction false} SplitNoSep(s: string, sep: char)
    requires sep !in s
    ensures Split(s, sep) == [s]
  {
    if s != [] {
      SplitNoSep(s[1..], sep);
      assert [s[0]] + s[1..] == s;
    }
  }

  /** Splitting at a separator splits the two sides independently. */
  lemma {:induction false} SplitAppend(a: string, b: string, sep: char)
    ensures Split(a + [sep] + b, sep) == Split(a, sep) + Split(b, sep)
  {
    var s := a + [sep] + b;
    if a == [] {
      assert s[1..] == b;
    } else {
      assert s[1..] == a[1..] + [sep] + b;
      SplitAppend(a[1..], b, sep);
    }
  }

  /** A string that splits into one part has no separator and is that part. */
  lemma {:induction false} SplitSingle(s: string, sep: char)
    requires |Split(s, sep)| == 1
    ensures Split(s, sep)[0] == s && sep !in s
  {
    if s != [] {
      SplitSingle(s[1..], sep);
    }
  }

  /** A string that splits into several parts is its first part, a separator, and the rest. */
  lemma {:induction false} SplitFirst(s: string, sep: char)
    requires |Split(s, sep)| >= 2
    ensures var k := |Split(s, sep)[0]|;
            k < |s| && s[k] == sep && s[..k] == Split(s, sep)[0]
            && Split(s[k + 1..], sep) == Split(s, sep)[1..]
  {
    if s[0] != sep {
      SplitFirst(s[1..], sep);
      var k := |Split(s[1..], sep)[0]|;
      assert s[k + 2..] == s[1..][k + 1..];
    }
  }

  /** Joining parts that hold no separator and splitting again gives the parts back. */
  lemma {:induction false} SplitJoin(parts: seq<string>, sep: char)
    requires |parts| >= 1
    requires forall i :: 0 <= i < |parts| ==> sep !in parts[i]
    ensures Split(Join(parts, sep), sep) == parts
  {
    if |parts| == 1 {
      SplitNoSep(parts[0], sep);
    } else {
      SplitJoin(parts[1..], sep);
      SplitAppend(parts[0], Join(parts[1..], sep), sep);
      SplitNoSep(parts[0], sep);
    }
  }
}
