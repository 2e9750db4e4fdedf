/**
 * The input validators of the tunnel bot: the maintenance hour, the IPv4
 * addresses, the manual MTU values and the access check.
 */
module Validators {
  import opened Options
  import opened Text

  /**
   * The body of a base-10 integer as Python's `int()` reads it,
   * `digit ("_"? digit)*`: decimal digits, with single underscores only between digits.
   */
  predicate IsDigitBody(u: string) {
    |u| > 0 && IsDecimal(u[0]) && IsDigitTail(u[1..])
  }

  /** `("_"? digit)*` matched against all of u. */
  predicate IsDigitTail(u: string)
    decreases |u|
  {
    u == []
    || (IsDecimal(u[0]) && IsDigitTail(u[1..]))
    || (|u| >= 2 && u[0] == '_' && IsDecimal(u[1]) && IsDigitTail(u[2..]))
  }

  /** Every character of a digit tail is a digit or an underscore. */
  lemma {:induction false} DigitTailChars(u: string)
    requires IsDigitTail(u)
    ensures forall i :: 0 <= i < |u| ==> IsDecimal(u[i]) || u[i] == '_'
  {
    if u != [] {
      if IsDecimal(u[0]) && IsDigitTail(u[1..]) {
        DigitTailChars(u[1..]);
        assert forall i :: 1 <= i < |u| ==> u[i] == u[1..][i - 1];
      } else {
        DigitTailChars(u[2..]);
        assert forall i :: 2 <= i < |u| ==> u[i] == u[2..][i - 2];
      }
    }
  }

  lemma DigitBodyChars(u: string)
    requires IsDigitBody(u)
    ensures forall i :: 0 <= i < |u| ==> IsDecimal(u[i]) || u[i] == '_'
  {
    DigitTailChars(u[1..]);
    assert forall i :: 1 <= i < |u| ==> u[i] == u[1..][i - 1];
  }

  /** A run of plain digits is a digit tail. */
  lemma {:induction false} DigitsAreTail(u: string)
    requires AllDecimal(u)
    ensures IsDigitTail(u)
  {
    if u != [] {
      DigitsAreTail(u[1..]);
    }
  }

  function DropUnderscores(u: string): (r: string)
    ensures forall i :: 0 <= i < |r| ==> r[i] in u && r[i] != '_'
    ensures '_' !in u ==> r == u
  {
    if u == [] then []
    else if u[0] == '_' then DropUnderscores(u[1..])
    else [u[0]] + DropUnderscores(u[1..])
  }

  function Magnitude(u: string): (r: Option<nat>)
    ensures r.Some? <==> IsDigitBody(u)
  {
    if IsDigitBody(u) then
      var ds := DropUnderscores(u);
      DigitBodyChars(u);
      assert AllDecimal(ds);
      Some(Value(ds))
    else None
  }

  /**
   * The whitespace `int()` skips around a number: ASCII tab to carriage return and the
   * space, plus the non-ASCII whitespace that it first turns into spaces. The information
   * separators U+001C to U+001F count as whitespace for `str.strip()` but not here.
   */
  predicate IsIntSpace(c: char) {
    IsSpace(c) && !('\U{1C}' <= c <= '\U{1F}')
  }

  /** The surrounding whitespace `int()` skips, dropped from both ends. */
  function IntStrip(s: string): (r: string)
    ensures |r| <= |s|
    ensures r == [] || (!IsIntSpace(r[0]) && !IsIntSpace(r[|r| - 1]))
    decreases |s|
  {
    if |s| > 0 && IsIntSpace(s[0]) then IntStrip(s[1..])
    else if |s| > 0 && IsIntSpace(s[|s| - 1]) then IntStrip(s[..|s| - 1])
    else s
  }

  /** `int()` leaves alone a text whose ends are not whitespace it skips. */
  lemma IntStripUnchanged(s: string)
    requires s == [] || (!IsIntSpace(s[0]) && !IsIntSpace(s[|s| - 1]))
    ensures IntStrip(s) == s
  {
  }

  /** `int()` keeps the first character when it is not whitespace it skips. */
  lemma {:induction false} IntStripFirst(x: string)
    requires |x| > 0 && !IsIntSpace(x[0]) && IntStrip(x) != []
    ensures IntStrip(x)[0] == x[0]
    decreases |x|
  {
    if IsIntSpace(x[|x| - 1]) {
      var y := x[..|x| - 1];
      assert y != [] && y[0] == x[0];
      IntStripFirst(y);
    }
  }

  /** When what `int()` parses holds no whitespace at all, `str.strip()` leaves the same text. */
  lemma {:induction false} StripOfIntStripped(s: string)
    requires IntStrip(s) != [] && forall i :: 0 <= i < |IntStrip(s)| ==> !IsSpace(IntStrip(s)[i])
    ensures Strip(s) == IntStrip(s)
    decreases |s|
  {
    if |s| > 0 && IsIntSpace(s[0]) {
      StripOfIntStripped(s[1..]);
    } else if |s| > 0 && IsIntSpace(s[|s| - 1]) {
      IntStripFirst(s);
      StripOfIntStripped(s[..|s| - 1]);
    } else {
      StripNoSpace(s);
    }
  }

  /**
   * Python's `int(text)` on a string, base 10: surrounding whitespace is ignored, one
   * sign is allowed, and `None` stands for the ValueError it raises on anything else.
   */
  function PyInt(text: string): Option<int> {
    ParseStripped(IntStrip(text))
  }

  /** What `int()` makes of text that is already stripped: an optional sign and a digit body. */
  function ParseStripped(t: string): Option<int> {
    if |t| > 0 && (t[0] == '+' || t[0] == '-') then
      match Magnitude(t[1..])
      case None => None
      case Some(m) => Some(if t[0] == '-' then 0 - m else m as int)
    else
      match Magnitude(t)
      case None => None
      case Some(m) => Some(m as int)
  }

  /** `is_valid_crontab_hour`: the text parses as an integer in 0..23. */
  predicate IsValidCrontabHour(hour: string) {
    match PyInt(hour)
    case Some(h) => 0 <= h <= 23
    case None => false
  }

  /** The inline manual-MTU check: the text parses as an integer in 1280..1500. */
  predicate MtuAccepted(text: string) {
    match PyInt(text)
    case Some(m) => 1280 <= m <= 1500
    case None => false
  }

  /** The digits of a rendered number hold neither whitespace nor underscores. */
  lemma RenderedDigits(n: nat)
    ensures forall i :: 0 <= i < |NatToString(n)| ==> !IsSpace(NatToString(n)[i])
    ensures '_' !in NatToString(n)
    ensures Magnitude(NatToString(n)) == Some(n)
  {
    var s := NatToString(n);
    assert forall i :: 0 <= i < |s| ==> IsAsciiDigit(s[i]);
    DigitsAreTail(s[1..]);
    ValueOfNatToString(n);
  }

  /** `int()` reads back the decimal rendering of every natural number. */
  lemma PyIntOfNatToString(n: nat)
    ensures PyInt(NatToString(n)) == Some(n)
  {
    RenderedDigits(n);
    IntStripUnchanged(NatToString(n));
  }

  lemma SignedSpaceless(sign: char, s: string)
    requires sign == '-' || sign == '+'
    requires forall i :: 0 <= i < |s| ==> !IsSpace(s[i])
    ensures forall i :: 0 <= i < |[sign] + s| ==> !IsSpace(([sign] + s)[i])
    ensures ([sign] + s)[1..] == s
  {
    var t := [sign] + s;
    assert forall i :: 1 <= i < |t| ==> t[i] == s[i - 1];
  }

  /** A sign in front of text without whitespace leaves it without whitespace. */
  lemma SignedNoSpace(sign: char, s: string)
    requires sign == '-' || sign == '+'
    requires forall i :: 0 <= i < |s| ==> !IsSpace(s[i])
    ensures IntStrip([sign] + s) == [sign] + s && ([sign] + s)[1..] == s
  {
    SignedSpaceless(sign, s);
    IntStripUnchanged([sign] + s);
  }

  lemma ParseSigned(sign: char, s: string, n: nat)
    requires sign == '-' || sign == '+'
    requires Magnitude(s) == Some(n)
    ensures ParseStripped([sign] + s) == Some(if sign == '-' then -(n as int) else n)
  {
    assert ([sign] + s)[1..] == s;
  }

  /** A leading minus sign negates, a leading plus sign is accepted and ignored. */
  lemma PyIntSigned(n: nat)
    ensures PyInt("-" + NatToString(n)) == Some(-(n as int))
    ensures PyInt("+" + NatToString(n)) == Some(n)
  {
    RenderedDigits(n);
    SignedNoSpace('-', NatToString(n));
    SignedNoSpace('+', NatToString(n));
    ParseSigned('-', NatToString(n), n);
    ParseSigned('+', NatToString(n), n);
  }

  /** The hour validator accepts the rendering of n exactly when n is an hour of the day. */
  lemma HourAcceptsExactly(n: nat)
    ensures IsValidCrontabHour(NatToString(n)) <==> n <= 23
  {
    PyIntOfNatToString(n);
  }

  /** The MTU check accepts the rendering of n exactly when 1280 <= n <= 1500. */
  lemma MtuAcceptsExactly(n: nat)
    ensures MtuAccepted(NatToString(n)) <==> 1280 <= n <= 1500
  {
    PyIntOfNatToString(n);
  }

  /** The two defaults offered by the MTU keyboards lie in the accepted range. */
  lemma MtuDefaultsAccepted()
    ensures MtuAccepted("1480") && MtuAccepted("1424")
  {
    RenderedDefaults();
    RenderedMtu(1480);
    RenderedMtu(1424);
  }

  lemma RenderedDefaults()
    ensures NatToString(1480) == "1480" && NatToString(1424) == "1424"
  {
    FourDigits(1480);
    FourDigits(1424);
  }

  lemma RenderedMtu(n: nat)
    requires 1280 <= n <= 1500
    ensures MtuAccepted(NatToString(n))
  {
    MtuAcceptsExactly(n);
  }

  lemma MtuBoundsRejected()
    ensures !MtuAccepted("1279") && !MtuAccepted("1501")
  {
    RenderedBounds();
    MtuAcceptsExactly(1279);
    MtuAcceptsExactly(1501);
  }

  lemma RenderedBounds()
    ensures NatToString(1279) == "1279" && NatToString(1501) == "1501"
  {
    FourDigits(1279);
    FourDigits(1501);
  }

  lemma MtuWordRejected()
    ensures !MtuAccepted("abc")
  {
    IntStripUnchanged("abc");
  }

  /** `int()` also takes surrounding whitespace, so the hour check does too. */
  lemma HourAcceptsSurrounded()
    ensures IsValidCrontabHour(" 7\n")
  {
    assert " 7\n"[1..] == "7\n" && "7\n"[..1] == "7";
    IntStripUnchanged("7");
  }

  /** `int()` takes Persian digits. */
  lemma HourAcceptsPersianDigit()
    ensures IsValidCrontabHour("\U{06F5}")
  {
    IntStripUnchanged("\U{06F5}");
  }

  /** `int()` takes a single underscore between digits. */
  lemma HourAcceptsUnderscore()
    ensures IsValidCrontabHour("1_2")
  {
    IntStripUnchanged("1_2");
    assert IsDigitTail("_2") by { assert "_2"[2..] == []; }
    assert DropUnderscores("1_2") == "12";
    ValueOfTwo("12");
  }

  /** Two underscores in a row are not a number, nor is an hour past 23. */
  lemma HourRejects()
    ensures !IsValidCrontabHour("1__2")
    ensures !IsValidCrontabHour("24")
  {
    IntStripUnchanged("1__2");
    assert !IsDigitTail("__2");
    assert NatToString(24) == "24";
    HourAcceptsExactly(24);
  }

  /**
   * Stripping before `int()` changes nothing for a text `int()` accepts: the whitespace
   * it skips is whitespace `str.strip()` removes as well.
   */
  lemma PyIntOfStripped(text: string)
    requires PyInt(text).Some?
    ensures PyInt(Strip(text)) == PyInt(text)
  {
    ParsedHasNoSpace(IntStrip(text));
    ParsedNonEmpty(IntStrip(text));
    StripOfIntStripped(text);
    IntStripUnchanged(IntStrip(text));
  }

  lemma ParsedNonEmpty(t: string)
    requires ParseStripped(t).Some?
    ensures t != []
  {
  }

  /**
   * The other direction fails: `str.strip()` removes a trailing information separator that
   * `int()` refuses, so "1400\x1f" fails the MTU check but its stripped form passes.
   */
  lemma PyIntRejectsInfoSeparator()
    ensures PyInt("1400\U{1F}").None? && !MtuAccepted("1400\U{1F}")
    ensures Strip("1400\U{1F}") == "1400" && MtuAccepted(Strip("1400\U{1F}"))
  {
    SeparatorRefused();
    SeparatorStripped();
    MtuDefault1400();
  }

  lemma SeparatorRefused()
    ensures PyInt("1400\U{1F}").None?
  {
    var u := "1400\U{1F}";
    IntStripUnchanged(u);
    NotDigitBody(u, 4);
  }

  lemma SeparatorStripped()
    ensures Strip("1400\U{1F}") == "1400"
  {
    assert "1400\U{1F}"[..4] == "1400";
    StripUnchanged("1400");
  }

  lemma MtuDefault1400()
    ensures MtuAccepted("1400")
  {
    Rendered1400();
    RenderedMtu(1400);
  }

  lemma Rendered1400()
    ensures NatToString(1400) == "1400"
  {
    FourDigits(1400);
  }

  /** A character that is neither a digit nor an underscore rules out a digit body. */
  lemma NotDigitBody(u: string, i: nat)
    requires i < |u| && !IsDecimal(u[i]) && u[i] != '_'
    ensures !IsDigitBody(u)
  {
    DigitBodyCharsIf(u);
  }

  lemma DigitBodyCharsIf(u: string)
    ensures IsDigitBody(u) ==> forall i :: 0 <= i < |u| ==> IsDecimal(u[i]) || u[i] == '_'
  {
    if IsDigitBody(u) {
      DigitBodyChars(u);
    }
  }

  /** Text that `int()` accepts once stripped holds no whitespace. */
  lemma ParsedHasNoSpace(h: string)
    requires ParseStripped(h).Some?
    ensures forall i :: 0 <= i < |h| ==> !IsSpace(h[i])
  {
    if |h| > 0 && (h[0] == '+' || h[0] == '-') {
      DigitBodyChars(h[1..]);
      forall i | 0 <= i < |h| ensures !IsSpace(h[i]) {
        if i > 0 { assert h[i] == h[1..][i - 1]; }
      }
    } else {
      DigitBodyChars(h);
    }
  }

  lemma StrippedHourParses(text: string)
    requires IsValidCrontabHour(Strip(text))
    ensures ParseStripped(Strip(text)).Some?
  {
    IntStripUnchanged(Strip(text));
  }

  /** An accepted, stripped hour holds no whitespace at all. */
  lemma ValidHourHasNoSpace(text: string)
    requires IsValidCrontabHour(Strip(text))
    ensures forall i :: 0 <= i < |Strip(text)| ==> !IsSpace(Strip(text)[i])
  {
    StrippedHourParses(text);
    ParsedHasNoSpace(Strip(text));
  }

  // ---------------------------------------------------------------------------
  // is_valid_ip: the regular expression, one alternative at a time.

  /** `[0-9][0-9]?` matched against all of u. */
  predicate DigitThenOptionalDigit(u: string) {
    (|u| == 1 && IsAsciiDigit(u[0])) || (|u| == 2 && IsAsciiDigit(u[0]) && IsAsciiDigit(u[1]))
  }

  /** One octet, `25[0-5]|2[0-4][0-9]|[01]?[0-9][0-9]?`, matched against all of o. */
  predicate OctetPattern(o: string) {
    (|o| == 3 && o[0] == '2' && o[1] == '5' && '0' <= o[2] <= '5')
    || (|o| == 3 && o[0] == '2' && '0' <= o[1] <= '4' && IsAsciiDigit(o[2]))
    || (|o| >= 1 && (o[0] == '0' || o[0] == '1') && DigitThenOptionalDigit(o[1..]))
    || DigitThenOptionalDigit(o)
  }

  /** `(octet\.){n}octet` matched against all of s. */
  predicate DottedPattern(s: string, n: nat)
    decreases n, 1
  {
    if n == 0 then OctetPattern(s)
    else OctetThenDot(s, 1, n) || OctetThenDot(s, 2, n) || OctetThenDot(s, 3, n)
  }

  /** The first i characters are an octet, a dot follows, and the rest matches n - 1 more. */
  predicate OctetThenDot(s: string, i: nat, n: nat)
    requires n >= 1
    decreases n, 0
  {
    i < |s| && s[i] == '.' && OctetPattern(s[..i]) && DottedPattern(s[i + 1..], n - 1)
  }

  /**
   * `is_valid_ip`: `re.match` of the anchored dotted-quad pattern. Python's `$`
   * also matches just before a final newline, so one trailing "\n" is let through.
   */
  predicate IsValidIp(ip: string) {
    DottedPattern(ip, 3)
    || (|ip| > 0 && ip[|ip| - 1] == '\n' && DottedPattern(ip[..|ip| - 1], 3))
  }

  /** Reference definition: one to three ASCII digits whose value is at most 255. */
  predicate IsOctet(o: string) {
    1 <= |o| <= 3 && (forall i :: 0 <= i < |o| ==> IsAsciiDigit(o[i])) && Value(o) <= 255
  }

  /** Reference definition: exactly four dot-separated octets. */
  predicate IsDottedQuad(s: string) {
    var parts := Split(s, '.');
    |parts| == 4 && forall i :: 0 <= i < 4 ==> IsOctet(parts[i])
  }

  lemma ValueOfThree(o: string)
    requires |o| == 3 && AllDecimal(o)
    ensures Value(o) == 100 * DigitValue(o[0]) + 10 * DigitValue(o[1]) + DigitValue(o[2])
  {
    ValueOfTwo(o[..2]);
    assert o[..2][0] == o[0] && o[..2][1] == o[1];
  }

  lemma ValueOfTwo(o: string)
    requires |o| == 2 && AllDecimal(o)
    ensures Value(o) == 10 * DigitValue(o[0]) + DigitValue(o[1])
  {
    ValueOfOne(o[..1]);
    assert o[..1][0] == o[0];
  }

  lemma ValueOfOne(o: string)
    requires |o| == 1 && AllDecimal(o)
    ensures Value(o) == DigitValue(o[0])
  {
    assert o[..0] == [];
  }

  /** The octet alternation matches exactly the one-to-three-digit strings of value at most 255. */
  lemma OctetPatternIff(o: string)
    ensures OctetPattern(o) <==> IsOctet(o)
  {
    if |o| == 1 {
      if IsAsciiDigit(o[0]) { ValueOfOne(o); }
    } else if |o| == 2 {
      if IsAsciiDigit(o[0]) && IsAsciiDigit(o[1]) { ValueOfTwo(o); }
      assert o[1..][0] == o[1];
    } else if |o| == 3 {
      if IsAsciiDigit(o[0]) && IsAsciiDigit(o[1]) && IsAsciiDigit(o[2]) { ValueOfThree(o); }
      assert o[1..][0] == o[1] && o[1..][1] == o[2];
    }
  }

  /** Every character of a string is a separator or a character of one of its parts. */
  lemma {:induction false} SplitCovers(s: string, sep: char, i: nat)
    requires i < |s| && s[i] != sep
    ensures exists j, k :: 0 <= j < |Split(s, sep)| && 0 <= k < |Split(s, sep)[j]| && Split(s, sep)[j][k] == s[i]
    decreases |s|
  {
    var parts := Split(s, sep);
    var rest := Split(s[1..], sep);
    if i == 0 {
      assert parts[0][0] == s[0];
    } else {
      SplitCovers(s[1..], sep, i - 1);
      var j, k :| 0 <= j < |rest| && 0 <= k < |rest[j]| && rest[j][k] == s[1..][i - 1];
      if s[0] == sep {
        assert parts[j + 1] == rest[j];
      } else if j == 0 {
        assert parts[0][k + 1] == rest[0][k];
      } else {
        assert parts[j] == rest[j];
      }
    }
  }

  /** A dotted quad is made of ASCII digits and dots, and is not empty. */
  lemma DottedQuadChars(s: string)
    requires IsDottedQuad(s)
    ensures s != "" && forall i :: 0 <= i < |s| ==> s[i] == '.' || IsAsciiDigit(s[i])
  {
    forall i | 0 <= i < |s| ensures s[i] == '.' || IsAsciiDigit(s[i]) {
      if s[i] != '.' {
        SplitCovers(s, '.', i);
      }
    }
  }

  predicate AllOctets(parts: seq<string>) {
    forall i :: 0 <= i < |parts| ==> IsOctet(parts[i])
  }

  /** An octet followed by a dot splits off as the first part. */
  lemma OctetThenDotSplit(s: string, i: nat, n: nat)
    requires n >= 1 && OctetThenDot(s, i, n)
    ensures Split(s, '.') == [s[..i]] + Split(s[i + 1..], '.') && IsOctet(s[..i])
  {
    var o, rest := s[..i], s[i + 1..];
    OctetPatternIff(o);
    assert forall j :: 0 <= j < |o| ==> IsAsciiDigit(o[j]);
    assert '.' !in o;
    assert s == o + ['.'] + rest;
    SplitAppend(o, rest, '.');
    SplitNoSep(o, '.');
  }

  /** The n-dot pattern matches exactly the strings that split at dots into n + 1 octets. */
  lemma {:induction false} DottedPatternIff(s: string, n: nat)
    ensures DottedPattern(s, n) <==> |Split(s, '.')| == n + 1 && AllOctets(Split(s, '.'))
  {
    var parts := Split(s, '.');
    if n == 0 {
      if OctetPattern(s) {
        OctetPatternIff(s);
        assert forall j :: 0 <= j < |s| ==> IsAsciiDigit(s[j]);
        SplitNoSep(s, '.');
      }
      if |parts| == 1 && AllOctets(parts) {
        SplitSingle(s, '.');
        OctetPatternIff(s);
      }
    } else {
      if DottedPattern(s, n) {
        var i := if OctetThenDot(s, 1, n) then 1 else if OctetThenDot(s, 2, n) then 2 else 3;
        OctetThenDotSplit(s, i, n);
        DottedPatternIff(s[i + 1..], n - 1);
        assert parts[1..] == Split(s[i + 1..], '.');
      }
      if |parts| == n + 1 && AllOctets(parts) {
        SplitFirst(s, '.');
        var k := |parts[0]|;
        assert IsOctet(parts[0]);
        OctetPatternIff(parts[0]);
        assert AllOctets(parts[1..]);
        DottedPatternIff(s[k + 1..], n - 1);
        assert OctetThenDot(s, k, n);
      }
    }
  }

  /** The validator accepts a dotted quad, optionally followed by one newline, and nothing else. */
  lemma IsValidIpIff(ip: string)
    ensures IsValidIp(ip) <==>
              IsDottedQuad(ip) || (|ip| > 0 && ip[|ip| - 1] == '\n' && IsDottedQuad(ip[..|ip| - 1]))
  {
    DottedPatternIff(ip, 3);
    if |ip| > 0 {
      DottedPatternIff(ip[..|ip| - 1], 3);
    }
  }

  /** On stripped text, as the handlers validate it, the newline allowance never applies. */
  lemma StrippedIpIff(text: string)
    ensures IsValidIp(Strip(text)) <==> IsDottedQuad(Strip(text))
  {
    IsValidIpIff(Strip(text));
  }

  lemma AcceptsPlainAddress()
    ensures IsValidIp("192.168.1.1")
  {
    assert OctetPattern("1");
    assert "1.1"[..1] == "1" && "1.1"[2..] == "1";
    assert OctetThenDot("1.1", 1, 1);
    assert "168.1.1"[..3] == "168" && "168.1.1"[4..] == "1.1";
    assert OctetThenDot("168.1.1", 3, 2);
    assert "192.168.1.1"[..3] == "192" && "192.168.1.1"[4..] == "168.1.1";
    assert OctetThenDot("192.168.1.1", 3, 3);
  }

  /** Leading zeros are let through: `[01]?` absorbs them. */
  lemma AcceptsLeadingZeros()
    ensures IsValidIp("010.001.000.255")
  {
    assert "000.255"[..3] == "000" && "000.255"[4..] == "255";
    assert OctetThenDot("000.255", 3, 1);
    assert "001.000.255"[..3] == "001" && "001.000.255"[4..] == "000.255";
    assert OctetThenDot("001.000.255", 3, 2);
    assert "010.001.000.255"[..3] == "010" && "010.001.000.255"[4..] == "001.000.255";
    assert OctetThenDot("010.001.000.255", 3, 3);
  }

  lemma RejectsLargeOctet()
    ensures !IsValidIp("256.1.1.1")
  {
    var s := "256.1.1.1";
    assert s[1] != '.' && s[2] != '.';
    assert s[..3] == "256";
    assert !OctetPattern("256");
    assert s[|s| - 1] != '\n';
  }

  lemma RejectsThreeOctets()
    ensures !IsValidIp("1.2.3")
  {
    IsValidIpIff("1.2.3");
    assert "1.2.3" == "1" + ['.'] + "2.3";
    assert "2.3" == "2" + ['.'] + "3";
    SplitAppend("1", "2.3", '.');
    SplitAppend("2", "3", '.');
    SplitNoSep("1", '.');
    SplitNoSep("2", '.');
    SplitNoSep("3", '.');
    assert "1.2.3"[..4] == "1.2.";
    SplitAppend("1", "2.", '.');
    assert "1.2." == "1" + ['.'] + "2.";
    assert "2." == "2" + ['.'] + "";
    SplitAppend("2", "", '.');
  }

  // ---------------------------------------------------------------------------
  // check_user_access

  datatype Access = Admin | User

  /** `check_user_access`: the admin test comes first, then the allowed set. */
  function CheckUserAccess(user: int, adminId: int, allowed: set<int>): (r: Option<Access>)
    ensures r == Some(Admin) <==> user == adminId
    ensures r == Some(User) <==> user != adminId && user in allowed
    ensures r == None <==> user != adminId && user !in allowed
  {
    if user == adminId then Some(Admin)
    else if user in allowed then Some(User)
    else None
  }
}
