/**
 * The loading half of the adapter: finding the `.feature` files among Karma's files,
 * loading each one, and extracting the `#karma-cucumberjs` directives of every feature
 * file into one settings map (feature name -> scenario name -> tokens).
 */
module CucumberRunner {
  import opened Wrappers
  import opened JsText
  import opened Settings
  import opened FeatureLines

  // ---------------------------------------------------------------------------------------
  // The directive extractor as a state machine over classified lines
  // ---------------------------------------------------------------------------------------

  /**
   * The extractor's variables between two lines: the current feature and scenario names
   * (`None` is `null`) and the two pending token buffers, beside the map being built.
   */
  datatype ParseState = ParseState(
    currentFeature: Option<string>,
    currentScenario: Option<string>,
    settingsSeenScenario: seq<string>,
    settingsSeenFeature: seq<string>,
    settings: Settings)

  /** JavaScript truthiness of a name: `null` and the empty string are both false. */
  predicate Truthy(name: Option<string>) {
    name.Some? && name.value != ""
  }

  /**
   * `applySeen`: when a feature and a scenario are both current (truthy), their list is
   * extended with the scenario tokens and then the feature tokens.
   */
  function ApplySeen(st: ParseState): (r: Settings)
    ensures Extends(st.settings, r)
    ensures !(Truthy(st.currentScenario) && Truthy(st.currentFeature)) ==> r == st.settings
    ensures Truthy(st.currentScenario) && Truthy(st.currentFeature) ==>
              var f, s := st.currentFeature.value, st.currentScenario.value;
              HasEntry(r, f, s) &&
              Lookup(r, f, s) == Lookup(st.settings, f, s) + st.settingsSeenScenario + st.settingsSeenFeature &&
              forall f', s' :: (f' != f || s' != s) ==> HasEntry(r, f', s') == HasEntry(st.settings, f', s') && Lookup(r, f', s') == Lookup(st.settings, f', s')
  {
    if Truthy(st.currentScenario) && Truthy(st.currentFeature) then
      var r := Add(st.settings, st.currentFeature.value, st.currentScenario.value,
                   st.settingsSeenScenario + st.settingsSeenFeature);
      AddExtends(st.settings, st.currentFeature.value, st.currentScenario.value,
                 st.settingsSeenScenario + st.settingsSeenFeature);
      r
    else st.settings
  }

  /**
   * One line of the extractor's loop. The buffers are cleared only when a feature or a
   * scenario was already current (`!== null`), so tokens seen before the first feature
   * header survive into that feature; a directive goes to the feature buffer unless both
   * names are truthy.
   */
  function Step(st: ParseState, line: Line): (r: ParseState)
    ensures Extends(st.settings, r.settings)
    ensures r.settings == if line.FeatureHeader? || line.ScenarioHeader? then ApplySeen(st) else st.settings
    ensures line.FeatureHeader? ==> r.currentFeature == Some(line.name) && r.currentScenario.None?
    ensures line.ScenarioHeader? ==> r.currentFeature == st.currentFeature && r.currentScenario == Some(line.name)
    ensures line.Directive? || line.OtherLine? ==> r.currentFeature == st.currentFeature && r.currentScenario == st.currentScenario
    ensures line.Directive? ==> r.settingsSeenScenario + r.settingsSeenFeature == st.settingsSeenScenario + st.settingsSeenFeature + line.tokens ||
                                r.settingsSeenScenario + r.settingsSeenFeature == st.settingsSeenScenario + line.tokens + st.settingsSeenFeature
  {
    match line
    case FeatureHeader(featureName) =>
      ParseState(
        Some(featureName),
        None,
        if st.currentScenario.Some? then [] else st.settingsSeenScenario,
        if st.currentFeature.Some? then [] else st.settingsSeenFeature,
        ApplySeen(st))
    case ScenarioHeader(scenarioName) =>
      st.(currentScenario := Some(scenarioName),
          settingsSeenScenario := if st.currentScenario.Some? then [] else st.settingsSeenScenario,
          settings := ApplySeen(st))
    case Directive(comments) =>
      if !Truthy(st.currentScenario) || !Truthy(st.currentFeature) then
        st.(settingsSeenFeature := st.settingsSeenFeature + comments)
      else
        st.(settingsSeenScenario := st.settingsSeenScenario + comments)
    case OtherLine => st
  }

  function Run(st: ParseState, lines: seq<Line>): ParseState
    decreases |lines|
  {
    if lines == [] then st else Run(Step(st, lines[0]), lines[1..])
  }

  /** The state before the first line; a missing map (`!settings`) starts out empty. */
  function Start(settings: Option<Settings>): (st: ParseState)
    ensures st.currentFeature.None? && st.currentScenario.None?
    ensures st.settingsSeenScenario == [] && st.settingsSeenFeature == []
    ensures st.settings == if settings.Some? then settings.value else map[]
  {
    ParseState(None, None, [], [], settings.GetOr(map[]))
  }

  /** `fileContents.trim().split("\n")`. */
  function LinesOf(fileContents: string): (lines: seq<string>)
    ensures |lines| >= 1 && forall k :: 0 <= k < |lines| ==> '\n' !in lines[k]
    ensures Join(lines, '\n') == Trim(fileContents)
  {
    JoinSplit(Trim(fileContents), '\n');
    Split(Trim(fileContents), '\n')
  }

  function ClassifyAll(lines: seq<string>): (r: seq<Line>)
    ensures |r| == |lines| && forall i :: 0 <= i < |lines| ==> r[i] == Classify(lines[i])
  {
    seq(|lines|, i requires 0 <= i < |lines| => Classify(lines[i]))
  }

  /** The settings `parseSettingsFromFeature(fileContents, settings)` returns. */
  function ParseSettings(fileContents: string, settings: Option<Settings>): (r: Settings)
    ensures settings.Some? ==> Extends(settings.value, r)
  {
    RunExtends(Start(settings), ClassifyAll(LinesOf(fileContents)));
    ApplySeen(Run(Start(settings), ClassifyAll(LinesOf(fileContents))))
  }

  lemma {:induction false} RunAppend(st: ParseState, a: seq<Line>, b: seq<Line>)
    ensures Run(st, a + b) == Run(Run(st, a), b)
    decreases |a|
  {
    if a == [] {
      assert a + b == b;
    } else {
      assert (a + b)[1..] == a[1..] + b;
      RunAppend(Step(st, a[0]), a[1..], b);
    }
  }

  /** Running one more line is one more step. */
  lemma RunNextLine(st: ParseState, lines: seq<string>, i: nat)
    requires i < |lines|
    ensures Run(st, ClassifyAll(lines[..i + 1])) == Step(Run(st, ClassifyAll(lines[..i])), Classify(lines[i]))
  {
    assert ClassifyAll(lines[..i + 1]) == ClassifyAll(lines[..i]) + [Classify(lines[i])];
    RunAppend(st, ClassifyAll(lines[..i]), [Classify(lines[i])]);
  }

  /**
   * `parseSettingsFromFeature`: walks the lines, updating the current names, the two
   * buffers and the map, and flushes once more at the end.
   */
  method ParseSettingsFromFeature(fileContents: string, settings: Option<Settings>) returns (r: Settings)
    ensures r == ParseSettings(fileContents, settings)
  {
    var lines := LinesOf(fileContents);
    var currentFeature: Option<string> := None;
    var currentScenario: Option<string> := None;
    var settingsSeenScenario: seq<string> := [];
    var settingsSeenFeature: seq<string> := [];
    var m: Settings := if settings.None? then map[] else settings.value;
    var i := 0;
    while i < |lines|
      invariant 0 <= i <= |lines|
      invariant ParseState(currentFeature, currentScenario, settingsSeenScenario, settingsSeenFeature, m)
                == Run(Start(settings), ClassifyAll(lines[..i]))
    {
      var line := Classify(lines[i]);
      ghost var before := ParseState(currentFeature, currentScenario, settingsSeenScenario, settingsSeenFeature, m);
      RunNextLine(Start(settings), lines, i);
      match line {
        case FeatureHeader(featureName) =>
          m := ApplySeen(ParseState(currentFeature, currentScenario, settingsSeenScenario, settingsSeenFeature, m));
          if currentFeature != None {
            settingsSeenFeature := [];
          }
          if currentScenario != None {
            settingsSeenScenario := [];
          }
          currentFeature := Some(featureName);
          currentScenario := None;
        case ScenarioHeader(scenarioName) =>
          m := ApplySeen(ParseState(currentFeature, currentScenario, settingsSeenScenario, settingsSeenFeature, m));
          if currentScenario != None {
            settingsSeenScenario := [];
          }
          currentScenario := Some(scenarioName);
        case Directive(comments) =>
          if !Truthy(currentScenario) || !Truthy(currentFeature) {
            settingsSeenFeature := settingsSeenFeature + comments;
          } else {
            settingsSeenScenario := settingsSeenScenario + comments;
          }
        case OtherLine =>
      }
      assert ParseState(currentFeature, currentScenario, settingsSeenScenario, settingsSeenFeature, m) == Step(before, line);
      i := i + 1;
    }
    assert lines[..i] == lines;
    r := ApplySeen(ParseState(currentFeature, currentScenario, settingsSeenScenario, settingsSeenFeature, m));
  }

  // ---------------------------------------------------------------------------------------
  // General facts about the extractor
  // ---------------------------------------------------------------------------------------

  /** Lines of none of the three shapes. */
  function Meaningful(lines: seq<Line>): (r: seq<Line>)
    ensures forall i :: 0 <= i < |r| ==> !r[i].OtherLine?
    decreases |lines|
  {
    if lines == [] then []
    else if lines[0].OtherLine? then Meaningful(lines[1..])
    else [lines[0]] + Meaningful(lines[1..])
  }

  /** Any line of none of the three shapes leaves every variable of the extractor unchanged. */
  lemma {:induction false} OtherLinesIgnored(st: ParseState, lines: seq<Line>)
    ensures Run(st, lines) == Run(st, Meaningful(lines))
    decreases |lines|
  {
    if lines != [] {
      OtherLinesIgnored(Step(st, lines[0]), lines[1..]);
      if !lines[0].OtherLine? {
        assert ([lines[0]] + Meaningful(lines[1..]))[1..] == Meaningful(lines[1..]);
      }
    }
  }

  /** The scenario buffer holds tokens only while a scenario is current. */
  predicate ScenarioBufferClean(st: ParseState) {
    st.currentScenario.None? ==> st.settingsSeenScenario == []
  }

  lemma {:induction false} RunKeepsScenarioBufferClean(st: ParseState, lines: seq<Line>)
    requires ScenarioBufferClean(st)
    ensures ScenarioBufferClean(Run(st, lines))
    decreases |lines|
  {
    if lines != [] {
      RunKeepsScenarioBufferClean(Step(st, lines[0]), lines[1..]);
    }
  }

  /** `m'` keeps every feature key of `m`, and every list of `m` is a prefix of its list in `m'`. */
  ghost predicate Extends(m: Settings, m': Settings) {
    (forall f :: f in m ==> f in m') &&
    forall f, s :: HasEntry(m, f, s) ==> HasEntry(m', f, s) && Lookup(m, f, s) <= Lookup(m', f, s)
  }

  lemma ExtendsTransitive(m1: Settings, m2: Settings, m3: Settings)
    requires Extends(m1, m2) && Extends(m2, m3)
    ensures Extends(m1, m3)
  {
    forall f, s | HasEntry(m1, f, s)
      ensures HasEntry(m3, f, s) && Lookup(m1, f, s) <= Lookup(m3, f, s)
    {
      assert Lookup(m2, f, s) <= Lookup(m3, f, s);
    }
  }

  /** Adding to one pair extends the map. */
  lemma AddExtends(m: Settings, f: string, s: string, tokens: seq<string>)
    ensures Extends(m, Add(m, f, s, tokens))
  {
    var r := Add(m, f, s, tokens);
    forall f', s' | HasEntry(m, f', s')
      ensures HasEntry(r, f', s') && Lookup(m, f', s') <= Lookup(r, f', s')
    {
      if f' == f && s' == s {
        assert Lookup(r, f', s') == Lookup(m, f', s') + tokens;
      }
    }
  }

  /**
   * Accumulation: the extractor never removes a key or shortens a list; lists that are
   * already there are only ever extended at their end.
   */
  lemma {:induction false} RunExtends(st: ParseState, lines: seq<Line>)
    ensures Extends(st.settings, Run(st, lines).settings)
    ensures Extends(st.settings, ApplySeen(Run(st, lines)))
    decreases |lines|
  {
    if lines == [] {
      assert Extends(st.settings, st.settings);
    } else {
      var st1 := Step(st, lines[0]);
      RunExtends(st1, lines[1..]);
      ExtendsTransitive(st.settings, st1.settings, Run(st1, lines[1..]).settings);
      ExtendsTransitive(st.settings, st1.settings, ApplySeen(Run(st1, lines[1..])));
    }
  }

  /** Without a feature header nothing is ever added, whatever scenarios or directives come by. */
  lemma {:induction false} NoFeatureNoEntry(st: ParseState, lines: seq<Line>)
    requires st.currentFeature.None?
    requires forall i :: 0 <= i < |lines| ==> !lines[i].FeatureHeader?
    ensures Run(st, lines).currentFeature.None?
    ensures ApplySeen(Run(st, lines)) == st.settings
    decreases |lines|
  {
    if lines != [] {
      NoFeatureNoEntry(Step(st, lines[0]), lines[1..]);
    }
  }

  /**
   * A list that one line's flushes create comes from a scenario header `s` read while the
   * feature `f` is current.
   */
  lemma StepNewEntry(st: ParseState, line: Line, f: string, s: string)
    requires HasEntry(ApplySeen(Step(st, line)), f, s) && !HasEntry(ApplySeen(st), f, s)
    ensures line == ScenarioHeader(s) && st.currentFeature == Some(f)
    ensures f != "" && s != ""
  {
  }

  /** No line of `lines[lo..hi]` is a feature header. */
  predicate NoFeatureHeaderIn(lines: seq<Line>, lo: int, hi: int)
    requires 0 <= lo <= hi <= |lines|
  {
    forall k :: lo <= k < hi ==> !lines[k].FeatureHeader?
  }

  /**
   * Some line `b` is the scenario header `s`, and the feature current at `b` is `f`: either a
   * feature header `f` at some `a < b` with no feature header after it up to `b`, or the
   * feature already current before the first line, with no feature header up to `b`.
   */
  ghost predicate ScenarioUnderFeature(st: ParseState, lines: seq<Line>, f: string, s: string) {
    exists b :: 0 <= b < |lines| && lines[b] == ScenarioHeader(s) &&
      ((exists a :: 0 <= a < b && lines[a] == FeatureHeader(f) && NoFeatureHeaderIn(lines, a + 1, b + 1)) ||
       (st.currentFeature == Some(f) && NoFeatureHeaderIn(lines, 0, b + 1)))
  }

  /**
   * A list is created only by a flush while a feature and a scenario are both current:
   * its names are non-empty, and the scenario header `s` was read while `f` was the current
   * feature. In particular a scenario header before the first feature header creates no list.
   */
  lemma {:induction false} NewEntryFromHeaders(st: ParseState, lines: seq<Line>, f: string, s: string)
    requires HasEntry(ApplySeen(Run(st, lines)), f, s) && !HasEntry(ApplySeen(st), f, s)
    ensures f != "" && s != ""
    ensures ScenarioUnderFeature(st, lines, f, s)
    decreases |lines|
  {
    var st1 := Step(st, lines[0]);
    if HasEntry(ApplySeen(st1), f, s) {
      StepNewEntry(st, lines[0], f, s);
      assert NoFeatureHeaderIn(lines, 0, 1);
    } else {
      NewEntryFromHeaders(st1, lines[1..], f, s);
      ScenarioUnderFeatureStep(st, lines, f, s);
    }
  }

  /** A scenario header found after the first line is found in the whole list. */
  lemma ScenarioUnderFeatureStep(st: ParseState, lines: seq<Line>, f: string, s: string)
    requires |lines| >= 1 && ScenarioUnderFeature(Step(st, lines[0]), lines[1..], f, s)
    ensures ScenarioUnderFeature(st, lines, f, s)
  {
    var st1 := Step(st, lines[0]);
    var rest := lines[1..];
    var b :| 0 <= b < |rest| && rest[b] == ScenarioHeader(s) &&
      ((exists a :: 0 <= a < b && rest[a] == FeatureHeader(f) && NoFeatureHeaderIn(rest, a + 1, b + 1)) ||
       (st1.currentFeature == Some(f) && NoFeatureHeaderIn(rest, 0, b + 1)));
    assert lines[b + 1] == ScenarioHeader(s);
    if a :| 0 <= a < b && rest[a] == FeatureHeader(f) && NoFeatureHeaderIn(rest, a + 1, b + 1) {
      assert lines[a + 1] == FeatureHeader(f);
      assert NoFeatureHeaderIn(lines, a + 2, b + 2) by {
        forall k | a + 2 <= k < b + 2 ensures !lines[k].FeatureHeader? {
          assert lines[k] == rest[k - 1];
        }
      }
    } else if lines[0].FeatureHeader? {
      assert lines[0] == FeatureHeader(f);
      assert NoFeatureHeaderIn(lines, 1, b + 2) by {
        forall k | 1 <= k < b + 2 ensures !lines[k].FeatureHeader? {
          assert lines[k] == rest[k - 1];
        }
      }
    } else {
      assert NoFeatureHeaderIn(lines, 0, b + 2) by {
        forall k | 0 <= k < b + 2 ensures !lines[k].FeatureHeader? {
          if k > 0 { assert lines[k] == rest[k - 1]; }
        }
      }
    }
  }

  /**
   * The flush and the directive test use truthiness, the buffer resets `!== null`: after a
   * scenario header with an empty name, directives still go to the feature buffer, so they
   * reach the feature's next scenario.
   */
  lemma EmptyScenarioNameKeepsFeatureScope(f: string, s: string, tokens: seq<string>)
    requires f != "" && s != ""
    ensures ApplySeen(Run(Start(None), [FeatureHeader(f), ScenarioHeader(""), Directive(tokens), ScenarioHeader(s)]))
         == map[f := map[s := tokens]]
  {
    var s1 := ParseState(Some(f), None, [], [], map[]);
    var s2 := ParseState(Some(f), Some(""), [], [], map[]);
    var s3 := ParseState(Some(f), Some(""), [], tokens, map[]);
    var s4 := ParseState(Some(f), Some(s), [], tokens, map[]);
    assert Step(Start(None), FeatureHeader(f)) == s1;
    assert Step(s1, ScenarioHeader("")) == s2;
    assert Step(s2, Directive(tokens)) == s3;
    assert Step(s3, ScenarioHeader(s)) == s4;
    RunFour(Start(None), FeatureHeader(f), ScenarioHeader(""), Directive(tokens), ScenarioHeader(s));
    assert [] + tokens == tokens;
  }

  /** Under a named scenario the same directives stay with that scenario, and the next one gets none. */
  lemma NamedScenarioKeepsScenarioScope(f: string, s0: string, s: string, tokens: seq<string>)
    requires f != "" && s0 != "" && s != "" && s0 != s
    ensures ApplySeen(Run(Start(None), [FeatureHeader(f), ScenarioHeader(s0), Directive(tokens), ScenarioHeader(s)]))
         == map[f := map[s0 := tokens, s := []]]
  {
    var m := map[f := map[s0 := tokens]];
    var s1 := ParseState(Some(f), None, [], [], map[]);
    var s2 := ParseState(Some(f), Some(s0), [], [], map[]);
    var s3 := ParseState(Some(f), Some(s0), tokens, [], map[]);
    var s4 := ParseState(Some(f), Some(s), [], [], m);
    assert Step(Start(None), FeatureHeader(f)) == s1;
    assert Step(s1, ScenarioHeader(s0)) == s2;
    assert Step(s2, Directive(tokens)) == s3;
    assert ApplySeen(s3) == m by {
      assert [] + tokens + [] == tokens;
    }
    assert Step(s3, ScenarioHeader(s)) == s4;
    RunFour(Start(None), FeatureHeader(f), ScenarioHeader(s0), Directive(tokens), ScenarioHeader(s));
    assert Add(m, f, s, []) == m[f := m[f][s := []]];
  }

  /**
   * A scenario header before the first feature header is not a scope of its own: the
   * feature name is still `null`, so the directives after it go to the feature buffer, and
   * they reach the first feature's first scenario.
   */
  lemma StrayScenarioDirectivesReachFirstFeature(x: string, f: string, s: string, tokens: seq<string>)
    requires f != "" && s != ""
    ensures ApplySeen(Run(Start(None), [ScenarioHeader(x), Directive(tokens), FeatureHeader(f), ScenarioHeader(s)]))
         == map[f := map[s := tokens]]
  {
    var s1 := ParseState(None, Some(x), [], [], map[]);
    var s2 := ParseState(None, Some(x), [], tokens, map[]);
    var s3 := ParseState(Some(f), None, [], tokens, map[]);
    var s4 := ParseState(Some(f), Some(s), [], tokens, map[]);
    assert Step(Start(None), ScenarioHeader(x)) == s1;
    assert Step(s1, Directive(tokens)) == s2;
    assert Step(s2, FeatureHeader(f)) == s3;
    assert Step(s3, ScenarioHeader(s)) == s4;
    RunFour(Start(None), ScenarioHeader(x), Directive(tokens), FeatureHeader(f), ScenarioHeader(s));
    assert [] + tokens == tokens;
  }

  lemma RunFour(st: ParseState, l1: Line, l2: Line, l3: Line, l4: Line)
    ensures Run(st, [l1, l2, l3, l4]) == Step(Step(Step(Step(st, l1), l2), l3), l4)
  {
    var t1 := Step(st, l1);
    var t2 := Step(t1, l2);
    var t3 := Step(t2, l3);
    assert [l1, l2, l3, l4][1..] == [l2, l3, l4];
    assert [l2, l3, l4][1..] == [l3, l4];
    assert [l3, l4][1..] == [l4];
    assert [l4][1..] == [];
    assert Run(t3, [l4]) == Run(Step(t3, l4), []);
    assert Run(t2, [l3, l4]) == Run(t3, [l4]);
    assert Run(t1, [l2, l3, l4]) == Run(t2, [l3, l4]);
    assert Run(st, [l1, l2, l3, l4]) == Run(t1, [l2, l3, l4]);
  }

  // ---------------------------------------------------------------------------------------
  // Loading the feature files
  // ---------------------------------------------------------------------------------------

  const FeatureSuffix := ".feature"
  const NoFeatureFilesMessage := "No .feature files were found in your Karma config. Please add some .feature files to your Karma configuration."

  /** The paths among Karma's file keys that end in `.feature`, in iteration order. */
  function FeaturePaths(keys: seq<string>): (r: seq<string>)
    ensures |r| <= |keys|
    ensures forall p :: p in r <==> p in keys && EndsWith(p, FeatureSuffix)
    decreases |keys|
  {
    if keys == [] then []
    else if EndsWith(keys[0], FeatureSuffix) then [keys[0]] + FeaturePaths(keys[1..])
    else FeaturePaths(keys[1..])
  }

  /** Filtering keeps the order of the keys: the paths of `a + b` are those of `a`, then those of `b`. */
  lemma {:induction false} FeaturePathsAppend(a: seq<string>, b: seq<string>)
    ensures FeaturePaths(a + b) == FeaturePaths(a) + FeaturePaths(b)
    decreases |a|
  {
    if a == [] {
      assert a + b == b;
    } else {
      assert (a + b)[1..] == a[1..] + b;
      FeaturePathsAppend(a[1..], b);
    }
  }

  /** One key is kept, once, exactly when it ends in `.feature`. */
  lemma FeaturePathsOne(key: string)
    ensures FeaturePaths([key]) == if EndsWith(key, FeatureSuffix) then [key] else []
  {
    assert [key][1..] == [];
  }

  /** The `[path, contents]` pairs loading `paths` appends to `features`. */
  function Loaded(paths: seq<string>, loadFile: string -> string): (r: seq<(string, string)>)
    ensures |r| == |paths|
    ensures forall i :: 0 <= i < |paths| ==> r[i] == (paths[i], loadFile(paths[i]))
  {
    seq(|paths|, i requires 0 <= i < |paths| => (paths[i], loadFile(paths[i])))
  }

  /** The settings after parsing the files of `paths` one after the other, starting from `m`. */
  function ParseAll(paths: seq<string>, loadFile: string -> string, m: Settings): Settings
    decreases |paths|
  {
    if paths == [] then m
    else ParseSettings(loadFile(paths[|paths| - 1]), Some(ParseAll(paths[..|paths| - 1], loadFile, m)))
  }

  /** Threading the settings through successive parses keeps everything earlier files added. */
  lemma {:induction false} ParseAllExtends(paths: seq<string>, loadFile: string -> string, m: Settings)
    ensures Extends(m, ParseAll(paths, loadFile, m))
    decreases |paths|
  {
    if paths == [] {
      assert Extends(m, m);
    } else {
      var before := ParseAll(paths[..|paths| - 1], loadFile, m);
      ParseAllExtends(paths[..|paths| - 1], loadFile, m);
      ExtendsTransitive(m, before, ParseAll(paths, loadFile, m));
    }
  }

  /** Loading one more path appends its pair and parses its contents into the settings. */
  lemma LoadedNext(paths: seq<string>, loadFile: string -> string, i: nat, m: Settings)
    requires i < |paths|
    ensures Loaded(paths[..i + 1], loadFile) == Loaded(paths[..i], loadFile) + [(paths[i], loadFile(paths[i]))]
    ensures ParseAll(paths[..i + 1], loadFile, m) == ParseSettings(loadFile(paths[i]), Some(ParseAll(paths[..i], loadFile, m)))
  {
    assert paths[..i + 1][..i] == paths[..i];
  }

  /**
   * The runner's loading state. `karmaFiles` lists the keys of Karma's file object in the
   * order a `for ... in` loop visits them; reading a file is the parameter `loadFile`.
   */
  class CucumberRunner {
    const karmaFiles: seq<string>
    var features: seq<(string, string)>
    var featureSettings: Settings

    constructor (karmaFiles: seq<string>)
      ensures this.karmaFiles == karmaFiles
      ensures features == [] && featureSettings == map[]
    {
      this.karmaFiles := karmaFiles;
      features := [];
      featureSettings := map[];
    }

    /** `getFeatureFilePaths`. */
    method GetFeatureFilePaths() returns (featureFilesPaths: seq<string>)
      ensures featureFilesPaths == FeaturePaths(karmaFiles)
    {
      featureFilesPaths := [];
      var i := 0;
      while i < |karmaFiles|
        invariant 0 <= i <= |karmaFiles|
        invariant featureFilesPaths + FeaturePaths(karmaFiles[i..]) == FeaturePaths(karmaFiles)
      {
        assert karmaFiles[i..][1..] == karmaFiles[i + 1..];
        var filePath := karmaFiles[i];
        assert FeaturePaths(karmaFiles[i..])
            == (if EndsWith(filePath, FeatureSuffix) then [filePath] else []) + FeaturePaths(karmaFiles[i + 1..]);
        if EndsWith(filePath, FeatureSuffix) {
          featureFilesPaths := featureFilesPaths + [filePath];
        }
        i := i + 1;
      }
    }

    /** `loadFeature`: records the file and folds its directives into the settings. */
    method LoadFeature(featureFilePath: string, loadFile: string -> string)
      modifies this
      ensures features == old(features) + [(featureFilePath, loadFile(featureFilePath))]
      ensures featureSettings == ParseSettings(loadFile(featureFilePath), Some(old(featureSettings)))
    {
      var fileContents := loadFile(featureFilePath);
      features := features + [(featureFilePath, fileContents)];
      featureSettings := ParseSettingsFromFeature(fileContents, Some(featureSettings));
    }

    /**
     * `initialize`: fails with the "no feature files" error, changing nothing, when no
     * key ends in `.feature`; otherwise loads every feature file in order.
     */
    method Initialize(loadFile: string -> string) returns (error: Option<string>)
      modifies this
      ensures FeaturePaths(karmaFiles) == [] ==>
                error == Some(NoFeatureFilesMessage) &&
                features == old(features) && featureSettings == old(featureSettings)
      ensures FeaturePaths(karmaFiles) != [] ==>
                error == None &&
                features == old(features) + Loaded(FeaturePaths(karmaFiles), loadFile) &&
                featureSettings == ParseAll(FeaturePaths(karmaFiles), loadFile, old(featureSettings))
    {
      var featureFiles := GetFeatureFilePaths();
      if |featureFiles| == 0 {
        return Some(NoFeatureFilesMessage);
      }
      var i := 0;
      while i < |featureFiles|
        invariant 0 <= i <= |featureFiles|
        invariant features == old(features) + Loaded(featureFiles[..i], loadFile)
        invariant featureSettings == ParseAll(featureFiles[..i], loadFile, old(featureSettings))
      {
        LoadFeature(featureFiles[i], loadFile);
        LoadedNext(featureFiles, loadFile, i, old(featureSettings));
        i := i + 1;
      }
      assert featureFiles[..i] == featureFiles;
      error := None;
    }
  }
}
