/** Python `str` operations the core relies on, written out over `seq<char>`:
    whitespace stripping, splitting and joining on one character, substring
    search, non-overlapping counting and replacement, decimal rendering and the
    UTF-8 encoded length. */
module Text {

  /** Python's `str.isspace()` for one character: the ASCII whitespace and
      separator controls plus the Unicode space separators. */
  predicate IsSpace(c: char) {
    c == ' ' || ('\t' <= c <= '\r') || ('\U{1C}' <= c <= '\U{1F}') ||
    c == '\U{85}' || c == '\U{A0}' || c == '\U{1680}' || ('\U{2000}' <= c <= '\U{200A}') ||
    c == '\U{2028}' || c == '\U{2029}' || c == '\U{202F}' || c == '\U{205F}' || c == '\U{3000}'
  }

  predicate AllSpace(s: string) {
    forall i :: 0 <= i < |s| ==> IsSpace(s[i])
  }

  /** `s.lstrip()`: drops leading whitespace. */
  function TrimStart(s: string): (r: string)
    ensures r == [] || !IsSpace(r[0])
  {
    if |s| > 0 && IsSpace(s[0]) then TrimStart(s[1..]) else s
  }

  /** `s.rstrip()`: drops trailing whitespace. */
  function TrimEnd(s: string): (r: string)
    ensures r == [] || !IsSpace(r[|r| - 1])
  {
    if |s| > 0 && IsSpace(s[|s| - 1]) then TrimEnd(s[..|s| - 1]) else s
  }

  /** `s.strip()`. */
  function Strip(s: string): string {
    TrimEnd(TrimStart(s))
  }

  predicate StartsWith(s: string, prefix: string) {
    |prefix| <= |s| && s[..|prefix|] == prefix
  }

  predicate EndsWith(s: string, suffix: string) {
    |suffix| <= |s| && s[|s| - |suffix|..] == suffix
  }

  /** Python's `p in s` for strings. */
  predicate Contains(s: string, p: string)
    decreases |s|
  {
    |p| <= |s| && (s[..|p|] == p || Contains(s[1..], p))
  }

  /** `s.count(p)`: occurrences counted left to right without overlap. */
  function CountOccurrences(s: string, p: string): nat
    requires |p| > 0
    decreases |s|
  {
    if |s| < |p| then 0
    else if s[..|p|] == p then 1 + CountOccurrences(s[|p|..], p)
    else CountOccurrences(s[1..], p)
  }

  /** `s.replace(p, r)`: every occurrence, found left to right without overlap, is replaced. */
  function ReplaceAll(s: string, p: string, r: string): string
    requires |p| > 0
    decreases |s|
  {
    if |s| < |p| then s
    else if s[..|p|] == p then r + ReplaceAll(s[|p|..], p, r)
    else [s[0]] + ReplaceAll(s[1..], p, r)
  }

  /** `s.split(sep)` for a one-character separator. */
  function Split(s: string, sep: char): (parts: seq<string>)
    ensures |parts| >= 1
  {
    if |s| == 0 then [""]
    else
      var rest := Split(s[1..], sep);
      if s[0] == sep then [""] + rest else [[s[0]] + rest[0]] + rest[1..]
  }

  /** `sep.join(parts)` for a one-character separator. */
  function Join(parts: seq<string>, sep: char): string {
    if |parts| == 0 then ""
    else if |parts| == 1 then parts[0]
    else parts[0] + [sep] + Join(parts[1..], sep)
  }

  function CountChar(s: string, c: char): nat {
    if |s| == 0 then 0 else (if s[0] == c then 1 else 0) + CountChar(s[1..], c)
  }

  function DigitChar(d: nat): char
    requires d < 10
  {
    "0123456789"[d]
  }

  /** `str(n)` for a non-negative integer. */
  function NatToString(n: nat): string {
    if n < 10 then [DigitChar(n)] else NatToString(n / 10) + [DigitChar(n % 10)]
  }

  /** Number of bytes UTF-8 uses for one Unicode scalar value. */
  function Utf8Width(c: char): nat {
    if c as int < 0x80 then 1
    else if c as int < 0x800 then 2
    else if c as int < 0x10000 then 3
    else 4
  }

  /** `len(s.encode('utf-8'))`. */
  function Utf8Length(s: string): nat {
    if |s| == 0 then 0 else Utf8Width(s[0]) + Utf8Length(s[1..])
  }

  // ---------------------------------------------------------------------------
  // Lemmas

  lemma {:induction false} Utf8LengthAppend(a: string, b: string)
    ensures Utf8Length(a + b) == Utf8Length(a) + Utf8Length(b)
  {
    if |a| > 0 {
      assert (a + b)[1..] == a[1..] + b;
      Utf8LengthAppend(a[1..], b);
    } else {
      assert a + b == b;
    }
  }

  /** Every character takes at least one byte, so the byte length is never below
      the character count. */
  lemma {:induction false} Utf8LengthAtLeastChars(s: string)
    ensures Utf8Length(s) >= |s|
  {
    if |s| > 0 {
      Utf8LengthAtLeastChars(s[1..]);
    }
  }

  /** A pure-ASCII string takes exactly one byte per character. */
  lemma {:induction false} Utf8LengthAscii(s: string)
    requires forall i :: 0 <= i < |s| ==> s[i] as int < 0x80
    ensures Utf8Length(s) == |s|
  {
    if |s| > 0 {
      Utf8LengthAscii(s[1..]);
    }
  }

  lemma Utf8LengthSlice(s: string, i: nat, j: nat)
    requires i <= j <= |s|
    ensures Utf8Length(s[i..j]) <= Utf8Length(s)
  {
    assert s == s[..i] + s[i..j] + s[j..];
    Utf8LengthAppend(s[..i] + s[i..j], s[j..]);
    Utf8LengthAppend(s[..i], s[i..j]);
  }

  lemma {:induction false} TrimStartIsSuffix(s: string)
    ensures |TrimStart(s)| <= |s| && TrimStart(s) == s[|s| - |TrimStart(s)|..]
  {
    if |s| > 0 && IsSpace(s[0]) {
      TrimStartIsSuffix(s[1..]);
    }
  }

  lemma {:induction false} TrimEndIsPrefix(s: string)
    ensures |TrimEnd(s)| <= |s| && TrimEnd(s) == s[..|TrimEnd(s)|]
  {
    if |s| > 0 && IsSpace(s[|s| - 1]) {
      TrimEndIsPrefix(s[..|s| - 1]);
    }
  }

  /** Stripping never makes the encoded text longer. */
  lemma StripNoLonger(s: string)
    ensures Utf8Length(Strip(s)) <= Utf8Length(s)
  {
    var t := TrimStart(s);
    TrimStartIsSuffix(s);
    TrimEndIsPrefix(t);
    assert s[|s| - |t|..|s|] == t;
    Utf8LengthSlice(s, |s| - |t|, |s|);
    assert t[0..|TrimEnd(t)|] == TrimEnd(t);
    Utf8LengthSlice(t, 0, |TrimEnd(t)|);
  }

  lemma {:induction false} TrimStartEmptyIffAllSpace(s: string)
    ensures TrimStart(s) == [] <==> AllSpace(s)
  {
    if |s| > 0 && IsSpace(s[0]) {
      TrimStartEmptyIffAllSpace(s[1..]);
      assert AllSpace(s) <==> AllSpace(s[1..]) by {
        if AllSpace(s[1..]) {
          forall i | 0 <= i < |s| ensures IsSpace(s[i]) {
            if i > 0 { assert s[i] == s[1..][i - 1]; }
          }
        }
      }
    }
  }

  /** `s.strip() == ''` holds exactly when every character of `s` is whitespace. */
  lemma StripEmptyIffAllSpace(s: string)
    ensures Strip(s) == [] <==> AllSpace(s)
  {
    TrimStartEmptyIffAllSpace(s);
    var t := TrimStart(s);
    if t != [] {
      assert !IsSpace(t[0]);
      assert TrimEnd(t) != [] by {
        var u := TrimEnd(t);
        if u == [] { TrimEndKeepsLeadingNonSpace(t); }
      }
    }
  }

  lemma {:induction false} TrimEndKeepsLeadingNonSpace(t: string)
    requires |t| > 0 && !IsSpace(t[0])
    ensures |TrimEnd(t)| > 0
  {
    if IsSpace(t[|t| - 1]) {
      TrimEndKeepsLeadingNonSpace(t[..|t| - 1]);
    }
  }

  /** Joining the pieces of a split restores the text. */
  lemma {:induction false} JoinSplit(s: string, sep: char)
    ensures Join(Split(s, sep), sep) == s
  {
    if |s| > 0 {
      var rest := Split(s[1..], sep);
      JoinSplit(s[1..], sep);
      if s[0] == sep {
        assert ([""] + rest)[1..] == rest;
      } else if |rest| > 1 {
        var parts := [[s[0]] + rest[0]] + rest[1..];
        assert parts[1..] == rest[1..];
        assert Join(rest, sep) == rest[0] + [sep] + Join(rest[1..], sep);
      }
    }
  }

  /** `s.split(sep)` has one piece more than `sep` has occurrences, and no piece holds `sep`. */
  lemma {:induction false} SplitPieces(s: string, sep: char)
    ensures |Split(s, sep)| == CountChar(s, sep) + 1
    ensures forall k :: 0 <= k < |Split(s, sep)| ==> sep !in Split(s, sep)[k]
  {
    if |s| > 0 {
      SplitPieces(s[1..], sep);
      var rest := Split(s[1..], sep);
      if s[0] != sep {
        var parts := [[s[0]] + rest[0]] + rest[1..];
        forall k | 0 <= k < |parts| ensures sep !in parts[k] {
          if k > 0 { assert parts[k] == rest[k]; }
        }
      } else {
        var parts := [""] + rest;
        forall k | 0 <= k < |parts| ensures sep !in parts[k] {
          if k > 0 { assert parts[k] == rest[k - 1]; }
        }
      }
    }
  }

  lemma {:induction false} CountZeroIffAbsent(s: string, p: string)
    requires |p| > 0
    ensures CountOccurrences(s, p) == 0 <==> !Contains(s, p)
    decreases |s|
  {
    if |s| >= |p| && s[..|p|] != p {
      CountZeroIffAbsent(s[1..], p);
    }
  }

  /** A text without the pattern is left as it is by `replace`. */
  lemma {:induction false} ReplaceAbsent(s: string, p: string, r: string)
    requires |p| > 0 && !Contains(s, p)
    ensures ReplaceAll(s, p, r) == s
    decreases |s|
  {
    if |s| >= |p| {
      ReplaceAbsent(s[1..], p, r);
      assert [s[0]] + s[1..] == s;
    }
  }

  /** Each replaced occurrence changes the length by `|r| - |p|`. */
  lemma {:induction false} ReplaceLength(s: string, p: string, r: string)
    requires |p| > 0
    ensures |ReplaceAll(s, p, r)| == |s| + CountOccurrences(s, p) * (|r| - |p|)
    decreases |s|
  {
    if |s| >= |p| {
      if s[..|p|] == p {
        ReplaceLength(s[|p|..], p, r);
        var c := CountOccurrences(s[|p|..], p);
        assert (1 + c) * (|r| - |p|) == (|r| - |p|) + c * (|r| - |p|);
      } else {
        ReplaceLength(s[1..], p, r);
      }
    }
  }

  /** A placeholder of the form `{name}` cannot occur in a text without `{`. */
  lemma {:induction false} NoBraceNoPlaceholder(s: string, p: string)
    requires |p| > 0 && p[0] == '{' && '{' !in s
    ensures !Contains(s, p)
    decreases |s|
  {
    if |p| <= |s| {
      assert s[..|p|][0] == s[0];
      NoBraceNoPlaceholder(s[1..], p);
    }
  }

  /** A pattern that starts with `{` and has no other `{` never matches inside a
      brace-free text, so `replace` copies such a text through unchanged. */
  lemma {:induction false} ReplaceSkipsBraceFree(w: string, t: string, p: string, r: string)
    requires |p| > 0 && p[0] == '{' && '{' !in w
    ensures ReplaceAll(w + t, p, r) == w + ReplaceAll(t, p, r)
    decreases |w|
  {
    if |w| > 0 {
      var s := w + t;
      assert s[0] == w[0];
      if |s| >= |p| {
        assert s[..|p|][0] != '{';
        assert s[1..] == w[1..] + t;
      }
      ReplaceSkipsBraceFree(w[1..], t, p, r);
      assert w == [w[0]] + w[1..];
    } else {
      assert w + t == t;
    }
  }

  /** Two placeholders `{a}` and `{b}` that are not prefixes of each other do not
      interfere: replacing every `{a}` leaves an occurrence of `{b}` in place. */
  lemma {:induction false} ReplaceKeepsOtherPlaceholder(s: string, p: string, q: string, r: string, i: nat)
    requires |p| > 0 && p[0] == '{' && '{' !in p[1..]
    requires |q| > 0 && q[0] == '{' && '{' !in q[1..]
    requires !StartsWith(p, q) && !StartsWith(q, p)
    requires i + |q| <= |s| && s[i..i + |q|] == q
    ensures Contains(ReplaceAll(s, p, r), q)
    decreases |s|
  {
    if |s| >= |p| && s[..|p|] == p {
      NotBothPrefixes(s, p, q);
      BraceOnlyFirst(s, p);
      assert s[i] == s[i..i + |q|][0] == '{';
      assert s[..|q|] == s[0..|q|];
      assert i >= |p|;
      ReplaceKeepsOtherPlaceholder(s[|p|..], p, q, r, i - |p|);
      ContainsAfterPrefix(r, ReplaceAll(s[|p|..], p, r), q);
    } else if i == 0 {
      var t := s[|q|..];
      assert s == q + t;
      assert |s| >= |p| ==> s[..|p|][0] == '{';
      assert s[1..] == q[1..] + t;
      ReplaceSkipsBraceFree(q[1..], t, p, r);
      var out := ReplaceAll(s, p, r);
      if |s| < |p| {
        assert out == s;
      } else {
        assert out == [s[0]] + ReplaceAll(s[1..], p, r);
      }
      assert out[..|q|] == q;
    } else {
      ReplaceKeepsOtherPlaceholder(s[1..], p, q, r, i - 1);
      if |s| >= |p| {
        ContainsAfterPrefix([s[0]], ReplaceAll(s[1..], p, r), q);
      } else {
        ContainsAfterPrefix([], s, q);
        assert ReplaceAll(s, p, r) == s;
      }
    }
  }

  lemma {:induction false} ContainsAfterPrefix(a: string, b: string, q: string)
    requires Contains(b, q)
    ensures Contains(a + b, q)
    decreases |a|
  {
    if |a| > 0 {
      ContainsAfterPrefix(a[1..], b, q);
      assert (a + b)[1..] == a[1..] + b;
    } else {
      assert a + b == b;
    }
  }

  lemma NotBothPrefixes(s: string, p: string, q: string)
    requires StartsWith(s, p) && !StartsWith(p, q) && !StartsWith(q, p)
    ensures !StartsWith(s, q)
  {
    if |q| <= |s| {
      assert |p| <= |q| ==> s[..|q|][..|p|] == s[..|p|];
      assert |q| < |p| ==> s[..|p|][..|q|] == s[..|q|];
    }
  }

  lemma BraceOnlyFirst(s: string, p: string)
    requires StartsWith(s, p) && |p| > 0 && '{' !in p[1..]
    ensures forall j :: 0 < j < |p| ==> s[j] != '{'
  {
    forall j | 0 < j < |p| ensures s[j] != '{' {
      assert s[j] == p[1..][j - 1];
    }
  }

  /** A text containing `t` contains every prefix of `t`. */
  lemma {:induction false} ContainsPrefixOf(s: string, t: string, p: string)
    requires Contains(s, t) && StartsWith(t, p)
    ensures Contains(s, p)
    decreases |s|
  {
    if s[..|t|] == t {
      assert s[..|p|] == t[..|p|];
    } else {
      ContainsPrefixOf(s[1..], t, p);
    }
  }
}
