/** The code-golf length score and the submission format check
    (backend/code_golf_scoring.py). */
module CodeGolfScoring {
  import opened Wrappers
  import opened Text

  function AsciiLower(c: char): char {
    if 'A' <= c <= 'Z' then (c as int + 32) as char else c
  }

  function LowerAscii(s: string): (r: string)
    ensures |r| == |s|
  {
    if |s| == 0 then [] else [AsciiLower(s[0])] + LowerAscii(s[1..])
  }

  /** `language.lower() == "python"`. No character outside ASCII lower-cases to
      one of the letters of "python", so ASCII folding decides this comparison. */
  predicate IsPython(language: string) {
    LowerAscii(language) == "python"
  }

  /** The dictionary `calculate_code_score` returns; the two python-only keys
      are `None` for other languages. */
  datatype CodeScore = CodeScore(
    byteLength: nat,
    charLength: nat,
    lineCount: Option<nat>,
    effectiveByteLength: Option<nat>,
    score: nat,
    language: string,
    scoringMethod: string)

  /** A stripped line that is kept in the effective code: not empty and not a comment. */
  predicate IsEffectiveLine(stripped: string) {
    stripped != [] && stripped[0] != '#'
  }

  /** The stripped lines kept in the effective code, in order. */
  function EffectiveLines(lines: seq<string>): (r: seq<string>)
    ensures |r| <= |lines|
    ensures forall k :: 0 <= k < |r| ==> IsEffectiveLine(r[k])
  {
    if |lines| == 0 then []
    else
      var stripped := Strip(lines[0]);
      (if IsEffectiveLine(stripped) then [stripped] else []) + EffectiveLines(lines[1..])
  }

  lemma {:induction false} EffectiveLinesAppend(a: seq<string>, b: seq<string>)
    ensures EffectiveLines(a + b) == EffectiveLines(a) + EffectiveLines(b)
  {
    if |a| == 0 {
      assert a + b == b;
    } else {
      assert (a + b)[1..] == a[1..] + b;
      EffectiveLinesAppend(a[1..], b);
    }
  }

  lemma JoinConsBound(x: string, ys: seq<string>)
    ensures Utf8Length(Join([x] + ys, '\n')) <= Utf8Length(x) + 1 + Utf8Length(Join(ys, '\n'))
  {
    if |ys| > 0 {
      assert ([x] + ys)[1..] == ys;
      Utf8LengthAppend(x + ['\n'], Join(ys, '\n'));
      Utf8LengthAppend(x, ['\n']);
    }
  }

  /** Dropping blank and comment lines and stripping the rest never lengthens the
      encoded text. */
  lemma {:induction false} EffectiveCodeNoLonger(lines: seq<string>)
    ensures Utf8Length(Join(EffectiveLines(lines), '\n')) <= Utf8Length(Join(lines, '\n'))
  {
    if |lines| > 0 {
      var stripped := Strip(lines[0]);
      var rest := EffectiveLines(lines[1..]);
      StripNoLonger(lines[0]);
      if |lines| == 1 {
        assert EffectiveLines(lines[1..]) == [];
      } else {
        EffectiveCodeNoLonger(lines[1..]);
        Utf8LengthAppend(lines[0] + ['\n'], Join(lines[1..], '\n'));
        Utf8LengthAppend(lines[0], ['\n']);
        assert Join(lines, '\n') == lines[0] + ['\n'] + Join(lines[1..], '\n');
        assert Utf8Length(['\n']) == 1;
        if IsEffectiveLine(stripped) {
          assert EffectiveLines(lines) == [stripped] + rest;
          JoinConsBound(stripped, rest);
        } else {
          assert EffectiveLines(lines) == rest;
        }
      }
    }
  }

  /** The loop that fills `effective_lines`. */
  method CollectEffectiveLines(lines: seq<string>) returns (effective: seq<string>)
    ensures effective == EffectiveLines(lines)
  {
    effective := [];
    var i := 0;
    while i < |lines|
      invariant 0 <= i <= |lines|
      invariant effective == EffectiveLines(lines[..i])
    {
      var stripped := Strip(lines[i]);
      if stripped != [] && stripped[0] != '#' {
        effective := effective + [stripped];
      }
      assert lines[..i + 1] == lines[..i] + [lines[i]];
      EffectiveLinesAppend(lines[..i], [lines[i]]);
      i := i + 1;
    }
    assert lines[..i] == lines;
  }

  /** `calculate_code_score`: the score is the UTF-8 byte length for every
      language; python also reports the line count and the length of the code
      without blank and comment lines. */
  method CalculateCodeScore(code: string, language: string) returns (s: CodeScore)
    ensures s.score == s.byteLength == Utf8Length(code)
    ensures s.charLength == |code| <= s.byteLength
    ensures s.language == language && s.scoringMethod == "byte_length"
    ensures s.lineCount.Some? <==> IsPython(language)
    ensures s.effectiveByteLength.Some? <==> IsPython(language)
    ensures IsPython(language) ==> s.lineCount.value == CountChar(Strip(code), '\n') + 1
    ensures IsPython(language) ==>
      s.effectiveByteLength.value == Utf8Length(Join(EffectiveLines(Split(Strip(code), '\n')), '\n'))
    ensures IsPython(language) ==> s.effectiveByteLength.value <= s.byteLength
  {
    Utf8LengthAtLeastChars(code);
    var byteLength := Utf8Length(code);
    if LowerAscii(language) == "python" {
      var charLength := |code|;
      var lines := Split(Strip(code), '\n');
      var lineCount := |lines|;
      SplitPieces(Strip(code), '\n');
      var effectiveLines := CollectEffectiveLines(lines);
      var effectiveCode := Join(effectiveLines, '\n');
      var effectiveByteLength := Utf8Length(effectiveCode);
      EffectiveCodeNoLonger(lines);
      JoinSplit(Strip(code), '\n');
      StripNoLonger(code);
      s := CodeScore(byteLength, charLength, Some(lineCount), Some(effectiveByteLength),
                     byteLength, language, "byte_length");
    } else {
      s := CodeScore(byteLength, |code|, None, None, byteLength, language, "byte_length");
    }
  }

  // ---------------------------------------------------------------------------
  // Format validation

  datatype Issue = EmptyCode | UnbalancedTripleQuotes
  datatype Warning = TrailingBlankLines(count: nat) | MixedIndentation

  function IssueMessage(i: Issue): string {
    match i
    case EmptyCode => "代码不能为空"
    case UnbalancedTripleQuotes => "多行字符串引号不匹配"
  }

  function WarningMessage(w: Warning): string {
    match w
    case TrailingBlankLines(n) => "代码末尾有 " + NatToString(n) + " 行空行，可以优化"
    case MixedIndentation => "混合使用了制表符和空格，建议统一"
  }

  datatype Validation = Validation(isValid: bool, issues: seq<Issue>, warnings: seq<Warning>, canSubmit: bool)

  /** The number of whitespace-only lines at the end of `lines`. */
  function TrailingBlankCount(lines: seq<string>): (n: nat)
    ensures n <= |lines|
    ensures forall k :: |lines| - n <= k < |lines| ==> AllSpace(lines[k])
    ensures n < |lines| ==> !AllSpace(lines[|lines| - 1 - n])
  {
    if |lines| == 0 || !AllSpace(lines[|lines| - 1]) then 0
    else 1 + TrailingBlankCount(lines[..|lines| - 1])
  }

  /** The reversed loop with `break` that counts trailing blank lines. */
  method CountTrailingBlankLines(lines: seq<string>) returns (n: nat)
    ensures n == TrailingBlankCount(lines)
  {
    n := 0;
    var i := |lines|;
    while i > 0
      invariant 0 <= i <= |lines|
      invariant n == |lines| - i
      invariant forall k :: i <= k < |lines| ==> AllSpace(lines[k])
    {
      StripEmptyIffAllSpace(lines[i - 1]);
      if Strip(lines[i - 1]) == [] {
        n := n + 1;
        i := i - 1;
      } else {
        break;
      }
    }
    TrailingCountUnique(lines, n);
  }

  /** The properties stated by `TrailingBlankCount`'s contract determine the count. */
  lemma TrailingCountUnique(lines: seq<string>, m: nat)
    requires m <= |lines|
    requires forall k :: |lines| - m <= k < |lines| ==> AllSpace(lines[k])
    requires m < |lines| ==> !AllSpace(lines[|lines| - 1 - m])
    ensures m == TrailingBlankCount(lines)
  {
  }

  /** `validate_submission_format`: python code gets an issue when blank or when
      a triple quote kind occurs an odd number of times, and a warning for more
      than two trailing blank lines or for tabs together with double spaces;
      other languages are never checked. */
  method ValidateSubmissionFormat(code: string, language: string) returns (v: Validation)
    ensures v.isValid == v.canSubmit == (v.issues == [])
    ensures !IsPython(language) ==> v.issues == [] && v.warnings == []
    ensures IsPython(language) ==>
      v.issues ==
      (if AllSpace(code) then [EmptyCode] else []) +
      (if CountOccurrences(code, "\"\"\"") % 2 != 0 || CountOccurrences(code, "'''") % 2 != 0
       then [UnbalancedTripleQuotes] else [])
    ensures IsPython(language) ==>
      var trailing := TrailingBlankCount(Split(code, '\n'));
      v.warnings ==
        (if trailing > 2 then [TrailingBlankLines(trailing)] else []) +
        (if '\t' in code && Contains(code, "  ") then [MixedIndentation] else [])
  {
    var issues: seq<Issue> := [];
    var warnings: seq<Warning> := [];
    if LowerAscii(language) == "python" {
      StripEmptyIffAllSpace(code);
      if Strip(code) == [] {
        issues := issues + [EmptyCode];
      }
      if CountOccurrences(code, "\"\"\"") % 2 != 0 || CountOccurrences(code, "'''") % 2 != 0 {
        issues := issues + [UnbalancedTripleQuotes];
      }
      var lines := Split(code, '\n');
      var trailing := CountTrailingBlankLines(lines);
      if trailing > 2 {
        warnings := warnings + [TrailingBlankLines(trailing)];
      }
      var hasTabs := '\t' in code;
      var hasSpaces := Contains(code, "    ") || Contains(code, "  ");
      if Contains(code, "    ") {
        ContainsPrefixOf(code, "    ", "  ");
      }
      if hasTabs && hasSpaces {
        warnings := warnings + [MixedIndentation];
      }
    }
    v := Validation(|issues| == 0, issues, warnings, |issues| == 0);
  }

  datatype Comparison = Comparison(
    code1Score: nat,
    code2Score: nat,
    improvement: int,
    betterSubmission: nat,
    score1Details: CodeScore,
    score2Details: CodeScore)

  /** `compare_submissions`: the improvement is how many bytes the second code
      saves over the first; the second is reported better unless the first is
      strictly shorter. */
  method CompareSubmissions(code1: string, code2: string, language: string) returns (c: Comparison)
    ensures c.code1Score == Utf8Length(code1) && c.code2Score == Utf8Length(code2)
    ensures c.improvement == c.code1Score - c.code2Score
    ensures c.betterSubmission == 1 <==> Utf8Length(code1) < Utf8Length(code2)
    ensures c.betterSubmission == 2 <==> Utf8Length(code2) <= Utf8Length(code1)
    ensures c.score1Details.score == c.code1Score && c.score2Details.score == c.code2Score
  {
    var score1 := CalculateCodeScore(code1, language);
    var score2 := CalculateCodeScore(code2, language);
    var improvement := score1.score - score2.score;
    c := Comparison(score1.score, score2.score, improvement,
                    if score1.score < score2.score then 1 else 2, score1, score2);
  }
}
