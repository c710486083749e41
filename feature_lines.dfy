/**
 * The three line shapes the settings extractor recognises in a feature file, written as an
 * explicit classifier instead of regular expressions:
 *   feature:   /^\s*Feature: ?(.+)$/i
 *   scenario:  /^\s*Scenario: ?(.+)$/i
 *   directive: /^\s*#karma-cucumberjs ?(.+)$/i
 * Without the `m` flag, `(.+)$` asks that the text after the keyword be non-empty and free
 * of line terminators. The captured text is trimmed, so the optional space is immaterial.
 */
module FeatureLines {
  import opened Wrappers
  import opened JsText

  const FeatureKeyword := "feature:"
  const ScenarioKeyword := "scenario:"
  const DirectiveMarker := "#karma-cucumberjs"

  /** What a line of a feature file means to the extractor. */
  datatype Line =
    | FeatureHeader(name: string)
    | ScenarioHeader(name: string)
    | Directive(tokens: seq<string>)
    | OtherLine

  /** The `(.+)` group after ` ?`: the optional space is taken when something follows it. */
  function Capture(rest: string): string
    requires |rest| >= 1
  {
    if |rest| >= 2 && rest[0] == ' ' then rest[1..] else rest
  }

  /** Trimming the group gives the trimmed text after the keyword, space or no space. */
  lemma CaptureTrim(rest: string)
    requires |rest| >= 1
    ensures Trim(Capture(rest)) == Trim(rest)
  {
    if |rest| >= 2 && rest[0] == ' ' {
      assert rest == [' '] + rest[1..];
      TrimAfterWhite([' '], rest[1..]);
    }
  }

  /** The group captured after `keyword` at the start of `line`, if the line has that shape. */
  function MatchAfter(line: string, keyword: string): (r: Option<string>)
    ensures r.Some? <==>
              StartsWithIgnoreCase(TrimStart(line), keyword) && |TrimStart(line)| > |keyword| &&
              NoLineTerminator(TrimStart(line)[|keyword|..])
    ensures r.Some? ==> Trim(r.value) == Trim(TrimStart(line)[|keyword|..])
  {
    var s := TrimStart(line);
    if StartsWithIgnoreCase(s, keyword) && |s| > |keyword| && NoLineTerminator(s[|keyword|..]) then
      CaptureTrim(s[|keyword|..]);
      Some(Capture(s[|keyword|..]))
    else None
  }

  /** The classifier, testing the shapes in the order the extractor does: feature, scenario, directive. */
  function Classify(line: string): (r: Line)
    ensures r.FeatureHeader? ==> IsTrimmed(r.name)
    ensures r.ScenarioHeader? ==> IsTrimmed(r.name)
    ensures r.Directive? ==> |r.tokens| >= 1 && forall k :: 0 <= k < |r.tokens| ==> ' ' !in r.tokens[k]
  {
    match MatchAfter(line, FeatureKeyword)
    case Some(c) => TrimIsTrimmed(c); FeatureHeader(Trim(c))
    case None =>
      match MatchAfter(line, ScenarioKeyword)
      case Some(c) => TrimIsTrimmed(c); ScenarioHeader(Trim(c))
      case None =>
        match MatchAfter(line, DirectiveMarker)
        case Some(c) => Directive(Split(Trim(c), ' '))
        case None => OtherLine
  }

  /**
   * The three shapes exclude each other (after the leading white space they start with
   * `f`, `s` and `#`), so the order in which they are tested does not matter.
   */
  lemma ShapesDisjoint(line: string)
    ensures MatchAfter(line, FeatureKeyword).Some? ==> MatchAfter(line, ScenarioKeyword).None? && MatchAfter(line, DirectiveMarker).None?
    ensures MatchAfter(line, ScenarioKeyword).Some? ==> MatchAfter(line, DirectiveMarker).None?
  {
    var s := TrimStart(line);
    if MatchAfter(line, FeatureKeyword).Some? {
      assert AsciiLower(s[0]) == 'f';
    }
    if MatchAfter(line, ScenarioKeyword).Some? {
      assert AsciiLower(s[0]) == 's';
    }
  }

  /** A name that `trim` leaves alone and that holds no line terminator. */
  predicate IsPlainName(n: string) {
    IsTrimmed(n) && NoLineTerminator(n)
  }

  /** A line made of a spelling of `keyword`, one space and a plain name matches, capturing the name. */
  lemma {:induction false} KeywordLine(word: string, keyword: string, n: string)
    requires |word| == |keyword| >= 1 && !IsWhite(word[0])
    requires forall i :: 0 <= i < |word| ==> AsciiLower(word[i]) == keyword[i]
    requires IsPlainName(n)
    ensures MatchAfter(word + " " + n, keyword).Some?
    ensures Trim(MatchAfter(word + " " + n, keyword).value) == n
  {
    var line := word + " " + n;
    assert line[0] == word[0];
    assert TrimStart(line) == line;
    assert line[..|word|] == word;
    assert line[|word|..] == " " + n;
    assert NoLineTerminator(" " + n) by {
      forall i | 0 <= i < |" " + n| ensures !IsLineTerminator((" " + n)[i]) {
        if i > 0 { assert (" " + n)[i] == n[i - 1]; }
      }
    }
    CaptureTrim(" " + n);
    TrimAfterWhite(" ", n);
    TrimOfTrimmed(n);
  }

  /** A line whose first character does not fold to the keyword's first character does not match. */
  lemma OtherKeyword(line: string, keyword: string)
    requires |line| >= 1 && !IsWhite(line[0]) && |keyword| >= 1
    requires AsciiLower(line[0]) != keyword[0]
    ensures MatchAfter(line, keyword).None?
  {
    assert TrimStart(line) == line;
  }

  /** `Feature: n` is a feature header named `n`. */
  lemma FeatureHeaderLine(n: string)
    requires IsPlainName(n)
    ensures Classify("Feature: " + n) == FeatureHeader(n)
  {
    assert "Feature: " + n == "Feature:" + " " + n;
    KeywordLine("Feature:", FeatureKeyword, n);
  }

  /** `Scenario: n` is a scenario header named `n`. */
  lemma ScenarioHeaderLine(n: string)
    requires IsPlainName(n)
    ensures Classify("Scenario: " + n) == ScenarioHeader(n)
  {
    var line := "Scenario: " + n;
    assert line == "Scenario:" + " " + n;
    OtherKeyword(line, FeatureKeyword);
    KeywordLine("Scenario:", ScenarioKeyword, n);
  }

  /** `#karma-cucumberjs` followed by a space and a plain text is a directive with the text's pieces. */
  lemma DirectiveText(j: string)
    requires IsPlainName(j)
    ensures Classify(DirectiveMarker + " " + j) == Directive(Split(j, ' '))
  {
    var line := DirectiveMarker + " " + j;
    OtherKeyword(line, FeatureKeyword);
    OtherKeyword(line, ScenarioKeyword);
    assert forall i :: 0 <= i < |DirectiveMarker| ==> AsciiLower(DirectiveMarker[i]) == DirectiveMarker[i];
    KeywordLine(DirectiveMarker, DirectiveMarker, j);
  }

  /** `#karma-cucumberjs t1 t2 ...` is a directive with exactly the tokens `t1`, `t2`, ... */
  lemma DirectiveLine(tokens: seq<string>)
    requires |tokens| >= 1
    requires forall k :: 0 <= k < |tokens| ==> ' ' !in tokens[k]
    requires IsPlainName(Join(tokens, ' '))
    ensures Classify(DirectiveMarker + " " + Join(tokens, ' ')) == Directive(tokens)
  {
    var j := Join(tokens, ' ');
    DirectiveText(j);
    SplitJoin(tokens, ' ');
    assert Split(j, ' ') == tokens;
  }
}
