/**
 * String helpers the generator relies on: Python's whitespace test and
 * str.strip / str.rstrip, the "\n".join of a list of lines, and the decimal
 * rendering of a count used in default group names.
 */
module Text {
  import opened Wrappers

  /** The characters for which Python 3's str.isspace() holds. */
  predicate IsSpace(c: char)
  {
    ('\t' <= c <= '\r') || ('\U{1C}' <= c <= '\U{1F}') || c == ' ' ||
    c == '\U{85}' || c == '\U{A0}' || c == '\U{1680}' ||
    ('\U{2000}' <= c <= '\U{200A}') || c == '\U{2028}' || c == '\U{2029}' ||
    c == '\U{202F}' || c == '\U{205F}' || c == '\U{3000}'
  }

  predicate AllSpace(s: string)
  {
    forall k :: 0 <= k < |s| ==> IsSpace(s[k])
  }

  /** Neither end of `s` is whitespace. */
  predicate Trimmed(s: string)
  {
    s == [] || (!IsSpace(s[0]) && !IsSpace(s[|s| - 1]))
  }

  /** Python's str.rstrip(): drop trailing whitespace. */
  function RStrip(s: string): (r: string)
    ensures |r| <= |s|
  {
    if |s| > 0 && IsSpace(s[|s| - 1]) then RStrip(s[..|s| - 1]) else s
  }

  /** `RStrip(s)` is the prefix of `s` before its trailing whitespace. */
  lemma {:induction false} RStripSpec(s: string)
    ensures RStrip(s) == s[..|RStrip(s)|]
    ensures forall k :: |RStrip(s)| <= k < |s| ==> IsSpace(s[k])
    ensures RStrip(s) == [] || !IsSpace(RStrip(s)[|RStrip(s)| - 1])
  {
    if |s| > 0 && IsSpace(s[|s| - 1]) {
      RStripSpec(s[..|s| - 1]);
    }
  }

  /** `s` ends in a newline that no other whitespace precedes. */
  predicate EndsWithOneNewline(s: string)
  {
    |s| >= 2 && s[|s| - 1] == '\n' && !IsSpace(s[|s| - 2])
  }

  /** A string that starts with a visible character keeps a visible last character under rstrip. */
  lemma RStripVisible(s: string)
    requires |s| > 0 && !IsSpace(s[0])
    ensures |RStrip(s)| > 0 && !IsSpace(RStrip(s)[|RStrip(s)| - 1])
  {
    RStripSpec(s);
  }

  /** Python's str.lstrip(): drop leading whitespace. */
  function LStrip(s: string): (r: string)
    ensures |r| <= |s|
  {
    if |s| > 0 && IsSpace(s[0]) then LStrip(s[1..]) else s
  }

  /** `LStrip(s)` is the suffix of `s` after its leading whitespace. */
  lemma {:induction false} LStripSpec(s: string)
    ensures LStrip(s) == s[|s| - |LStrip(s)|..]
    ensures forall k :: 0 <= k < |s| - |LStrip(s)| ==> IsSpace(s[k])
    ensures LStrip(s) == [] || !IsSpace(LStrip(s)[0])
  {
    if |s| > 0 && IsSpace(s[0]) {
      LStripSpec(s[1..]);
    }
  }

  /** Python's str.strip(): drop whitespace at both ends. */
  function Strip(s: string): (r: string)
    ensures |r| <= |s|
    ensures Trimmed(r)
  {
    StripTrimmed(s);
    LStrip(RStrip(s))
  }

  /** Cutting the trailing and then the leading whitespace leaves neither end blank. */
  lemma StripTrimmed(s: string)
    ensures Trimmed(LStrip(RStrip(s)))
  {
    var t := RStrip(s);
    RStripSpec(s);
    LStripSpec(t);
    var r := LStrip(t);
    assert r != [] ==> r[|r| - 1] == t[|t| - 1];
  }

  /** `Strip(s)` is the slice of `s` left once the whitespace runs at both ends are cut off. */
  lemma StripSlice(s: string) returns (a: nat, b: nat)
    ensures a <= b <= |s| && Strip(s) == s[a..b]
    ensures forall k :: 0 <= k < a ==> IsSpace(s[k])
    ensures forall k :: b <= k < |s| ==> IsSpace(s[k])
    ensures a < b ==> !IsSpace(s[a]) && !IsSpace(s[b - 1])
  {
    var t := RStrip(s);
    RStripSpec(s);
    LStripSpec(t);
    b := |t|;
    a := |t| - |Strip(s)|;
    assert t == s[..b];
    assert Strip(s) == t[a..];
    forall k | 0 <= k < a ensures IsSpace(s[k]) {
      assert t[k] == s[k];
    }
  }

  /** A value strips to nothing exactly when it is whitespace only. */
  lemma StripEmptyIff(s: string)
    ensures Strip(s) == [] <==> AllSpace(s)
  {
    var a, b := StripSlice(s);
  }

  /** Stripping an already stripped value changes nothing. */
  lemma StripIdempotent(s: string)
    ensures Strip(Strip(s)) == Strip(s)
  {
    var t := Strip(s);
    assert RStrip(t) == t;
    assert LStrip(t) == t;
  }

  /** `sanitize` at app.py:43-44: a missing (None) or empty value becomes "", anything else is stripped. */
  function Sanitize(s: Option<string>): (r: string)
    ensures s.None? ==> r == []
    ensures s.Some? ==> |r| <= |s.value|
    ensures Trimmed(r)
  {
    Strip(if s.Some? then s.value else "")
  }

  lemma SanitizeIdempotent(s: Option<string>)
    ensures Sanitize(Some(Sanitize(s))) == Sanitize(s)
  {
    StripIdempotent(if s.Some? then s.value else "");
  }

  /** A line break never appears in a stripped value unless it was in the original. */
  lemma StripKeepsSingleLine(s: string, c: char)
    requires c !in s
    ensures c !in Strip(s)
  {
    var a, b := StripSlice(s);
  }

  /** Python's sep.join(parts). */
  function Join(sep: string, parts: seq<string>): (r: string)
    ensures |parts| > 0 ==> |parts[0]| <= |r| && r[..|parts[0]|] == parts[0]
    ensures |parts| > 0 ==> |parts[|parts| - 1]| <= |r| && r[|r| - |parts[|parts| - 1]|..] == parts[|parts| - 1]
  {
    if |parts| == 0 then ""
    else if |parts| == 1 then parts[0]
    else parts[0] + sep + Join(sep, parts[1..])
  }

  const NL: string := "\n"

  /** Every line followed by one newline: the shape of a text file made of `lines`. */
  function Unlines(lines: seq<string>): string
  {
    if lines == [] then "" else lines[0] + NL + Unlines(lines[1..])
  }

  lemma {:induction false} JoinThenNewline(lines: seq<string>)
    requires lines != []
    ensures Join(NL, lines) + NL == Unlines(lines)
  {
    if |lines| > 1 {
      JoinThenNewline(lines[1..]);
    }
  }

  lemma {:induction false} UnlinesAppend(a: seq<string>, b: seq<string>)
    ensures Unlines(a + b) == Unlines(a) + Unlines(b)
  {
    if a == [] {
      assert a + b == b;
    } else {
      assert (a + b)[1..] == a[1..] + b;
      UnlinesAppend(a[1..], b);
    }
  }

  lemma UnlinesSnoc(a: seq<string>, x: string)
    ensures Unlines(a + [x]) == Unlines(a) + x + NL
  {
    UnlinesAppend(a, [x]);
    assert Unlines([x]) == x + NL + Unlines([]);
  }

  lemma ConcatAssociative<T>(a: seq<T>, b: seq<T>, c: seq<T>)
    ensures a + (b + c) == (a + b) + c
  {
  }

  /** Lines none of which holds a line break. */
  predicate NoLineBreaks(lines: seq<string>)
  {
    forall k :: 0 <= k < |lines| ==> '\n' !in lines[k]
  }

  lemma NoLineBreaksConcat(a: seq<string>, b: seq<string>)
    requires NoLineBreaks(a) && NoLineBreaks(b)
    ensures NoLineBreaks(a + b)
  {
  }

  /**
   * When the last line ends in a visible character, right-stripping the
   * joined lines removes nothing, and appending one newline terminates every line.
   */
  lemma JoinRStripNewline(lines: seq<string>)
    requires lines != [] && lines[|lines| - 1] != [] && Trimmed(lines[|lines| - 1])
    ensures RStrip(Join(NL, lines)) + NL == Unlines(lines)
  {
    var joined, last := Join(NL, lines), lines[|lines| - 1];
    assert joined[|joined| - |last|..] == last;
    assert joined[|joined| - 1] == last[|last| - 1];
    assert RStrip(joined) == joined;
    JoinThenNewline(lines);
  }

  /** Number of occurrences of `c` in `s`. */
  function Count(c: char, s: string): nat
  {
    if s == [] then 0 else (if s[0] == c then 1 else 0) + Count(c, s[1..])
  }

  lemma {:induction false} CountConcat(c: char, a: string, b: string)
    ensures Count(c, a + b) == Count(c, a) + Count(c, b)
  {
    if a == [] {
      assert a + b == b;
    } else {
      assert (a + b)[1..] == a[1..] + b;
      CountConcat(c, a[1..], b);
    }
  }

  lemma {:induction false} CountAbsent(c: char, s: string)
    requires c !in s
    ensures Count(c, s) == 0
  {
    if s != [] {
      CountAbsent(c, s[1..]);
    }
  }

  /** A text made of single-line lines has exactly one newline per line. */
  lemma {:induction false} UnlinesNewlines(lines: seq<string>)
    requires NoLineBreaks(lines)
    ensures Count('\n', Unlines(lines)) == |lines|
  {
    if lines != [] {
      var rest := Unlines(lines[1..]);
      UnlinesNewlines(lines[1..]);
      CountAbsent('\n', lines[0]);
      CountConcat('\n', lines[0], NL + rest);
      CountConcat('\n', NL, rest);
      assert Count('\n', NL) == 1;
      assert Unlines(lines) == lines[0] + (NL + rest);
    }
  }

  function DigitChar(d: nat): (c: char)
    requires d < 10
    ensures '0' <= c <= '9'
  {
    (48 + d) as char
  }

  /** Python's str(n) for a non-negative int, as used by f"Group {idx}". */
  function NatToString(n: nat): (r: string)
    ensures |r| > 0
    ensures forall k :: 0 <= k < |r| ==> '0' <= r[k] <= '9'
    ensures r[0] == '0' ==> n == 0
    decreases n
  {
    if n < 10 then [DigitChar(n)] else NatToString(n / 10) + [DigitChar(n % 10)]
  }

  /** The number a string of decimal digits denotes. */
  function DecimalValue(s: string): nat
    requires forall k :: 0 <= k < |s| ==> '0' <= s[k] <= '9'
  {
    if s == [] then 0 else DecimalValue(s[..|s| - 1]) * 10 + (s[|s| - 1] as int - 48)
  }

  lemma {:induction false} NatToStringRoundTrip(n: nat)
    ensures DecimalValue(NatToString(n)) == n
    decreases n
  {
    if n >= 10 {
      var p := NatToString(n / 10);
      assert (p + [DigitChar(n % 10)])[..|p|] == p;
      NatToStringRoundTrip(n / 10);
    }
  }

  /** Distinct counts print differently. */
  lemma NatToStringInjective(m: nat, n: nat)
    requires NatToString(m) == NatToString(n)
    ensures m == n
  {
    NatToStringRoundTrip(m);
    NatToStringRoundTrip(n);
  }
}
