/**
 * The scoping rules of the directive extractor, stated over a feature file of the usual
 * shape: directives before the first feature header (a preamble), then features, each
 * with directives before its first scenario and then its scenarios, each scenario with
 * its own directives. The main theorem says which list each directive ends up in.
 */
module SettingsScoping {
  import opened Wrappers
  import opened JsText
  import opened Settings
  import opened FeatureLines
  import opened CucumberRunner

  /** A scenario header and the directive lines after it; each directive is a token list. */
  datatype ScenarioBlock = ScenarioBlock(name: string, directives: seq<seq<string>>)

  /** A feature header, the directive lines before its first scenario, and its scenarios. */
  datatype FeatureBlock = FeatureBlock(name: string, directives: seq<seq<string>>, scenarios: seq<ScenarioBlock>)

  /** Directive lines before the first feature header, then the features. */
  datatype Document = Document(preamble: seq<seq<string>>, features: seq<FeatureBlock>)

  /** Every feature and scenario has a non-empty name. */
  predicate WellNamed(doc: Document) {
    forall i :: 0 <= i < |doc.features| ==>
      doc.features[i].name != "" &&
      forall j :: 0 <= j < |doc.features[i].scenarios| ==> doc.features[i].scenarios[j].name != ""
  }

  function Flatten(directives: seq<seq<string>>): seq<string>
    decreases |directives|
  {
    if directives == [] then [] else directives[0] + Flatten(directives[1..])
  }

  function DirectiveLines(directives: seq<seq<string>>): seq<Line>
    decreases |directives|
  {
    if directives == [] then [] else [Directive(directives[0])] + DirectiveLines(directives[1..])
  }

  function RenderScenarios(scenarios: seq<ScenarioBlock>): seq<Line>
    decreases |scenarios|
  {
    if scenarios == [] then []
    else [ScenarioHeader(scenarios[0].name)] + DirectiveLines(scenarios[0].directives) + RenderScenarios(scenarios[1..])
  }

  function RenderFeatures(features: seq<FeatureBlock>): seq<Line>
    decreases |features|
  {
    if features == [] then []
    else
      [FeatureHeader(features[0].name)] + DirectiveLines(features[0].directives)
      + RenderScenarios(features[0].scenarios) + RenderFeatures(features[1..])
  }

  /** The lines of a document, as the classifier sees them. */
  function Render(doc: Document): seq<Line> {
    DirectiveLines(doc.preamble) + RenderFeatures(doc.features)
  }

  /** Every scenario of a feature receives its own tokens followed by the feature's tokens. */
  function ScenarioEntries(feature: string, featureTokens: seq<string>, scenarios: seq<ScenarioBlock>): (r: seq<Entry>)
    ensures |r| == |scenarios|
    ensures forall j :: 0 <= j < |scenarios| ==>
              r[j] == Entry(feature, scenarios[j].name, Flatten(scenarios[j].directives) + featureTokens)
    decreases |scenarios|
  {
    if scenarios == [] then []
    else [Entry(feature, scenarios[0].name, Flatten(scenarios[0].directives) + featureTokens)]
         + ScenarioEntries(feature, featureTokens, scenarios[1..])
  }

  /** `carried` (the preamble) joins the first feature's tokens and no later feature's. */
  function FeatureEntries(features: seq<FeatureBlock>, carried: seq<string>): seq<Entry>
    decreases |features|
  {
    if features == [] then []
    else
      ScenarioEntries(features[0].name, carried + Flatten(features[0].directives), features[0].scenarios)
      + FeatureEntries(features[1..], [])
  }

  /** The additions a document makes, one per scenario, in the order of the file. */
  function Entries(doc: Document): seq<Entry> {
    FeatureEntries(doc.features, Flatten(doc.preamble))
  }

  /**
   * The tokens the scoping rules give scenario `j` of feature `i`: its own, then, for the
   * first feature only, those before any feature, then those of its feature's opening section.
   */
  function ScopedTokens(doc: Document, i: nat, j: nat): seq<string>
    requires i < |doc.features| && j < |doc.features[i].scenarios|
  {
    ScopedTokensIn(doc.features, Flatten(doc.preamble), i, j)
  }

  function ScopedTokensIn(features: seq<FeatureBlock>, carried: seq<string>, i: nat, j: nat): seq<string>
    requires i < |features| && j < |features[i].scenarios|
  {
    Flatten(features[i].scenarios[j].directives) + ((if i == 0 then carried else []) + Flatten(features[i].directives))
  }

  // ---------------------------------------------------------------------------------------
  // How the extractor runs over each part of a document
  // ---------------------------------------------------------------------------------------

  lemma {:induction false} FeatureScopeDirectives(st: ParseState, directives: seq<seq<string>>)
    requires !Truthy(st.currentScenario) || !Truthy(st.currentFeature)
    ensures Run(st, DirectiveLines(directives)) == st.(settingsSeenFeature := st.settingsSeenFeature + Flatten(directives))
    decreases |directives|
  {
    if directives == [] {
      assert st.settingsSeenFeature + [] == st.settingsSeenFeature;
    } else {
      FeatureScopeDirectives(Step(st, Directive(directives[0])), directives[1..]);
      assert st.settingsSeenFeature + directives[0] + Flatten(directives[1..]) == st.settingsSeenFeature + Flatten(directives);
    }
  }

  lemma {:induction false} ScenarioScopeDirectives(st: ParseState, directives: seq<seq<string>>)
    requires Truthy(st.currentScenario) && Truthy(st.currentFeature)
    ensures Run(st, DirectiveLines(directives)) == st.(settingsSeenScenario := st.settingsSeenScenario + Flatten(directives))
    decreases |directives|
  {
    if directives == [] {
      assert st.settingsSeenScenario + [] == st.settingsSeenScenario;
    } else {
      ScenarioScopeDirectives(Step(st, Directive(directives[0])), directives[1..]);
      assert st.settingsSeenScenario + directives[0] + Flatten(directives[1..]) == st.settingsSeenScenario + Flatten(directives);
    }
  }

  lemma {:induction false} ScenariosRun(st: ParseState, feature: string, featureTokens: seq<string>, scenarios: seq<ScenarioBlock>)
    requires st.currentFeature == Some(feature) && feature != ""
    requires st.settingsSeenFeature == featureTokens && ScenarioBufferClean(st)
    requires forall j :: 0 <= j < |scenarios| ==> scenarios[j].name != ""
    ensures Run(st, RenderScenarios(scenarios)).currentFeature == Some(feature)
    ensures Run(st, RenderScenarios(scenarios)).settingsSeenFeature == featureTokens
    ensures ScenarioBufferClean(Run(st, RenderScenarios(scenarios)))
    ensures ApplySeen(Run(st, RenderScenarios(scenarios)))
            == AddAll(ApplySeen(st), ScenarioEntries(feature, featureTokens, scenarios))
    decreases |scenarios|
  {
    if scenarios != [] {
      var sc := scenarios[0];
      var header := [ScenarioHeader(sc.name)];
      var st1 := Step(st, ScenarioHeader(sc.name));
      assert st1 == st.(currentScenario := Some(sc.name), settingsSeenScenario := [], settings := ApplySeen(st));
      assert Run(st, header) == st1;
      ScenarioScopeDirectives(st1, sc.directives);
      var st2 := Run(st1, DirectiveLines(sc.directives));
      assert [] + Flatten(sc.directives) == Flatten(sc.directives);
      assert st2 == st1.(settingsSeenScenario := Flatten(sc.directives));
      assert ApplySeen(st2) == Add(ApplySeen(st), feature, sc.name, Flatten(sc.directives) + featureTokens);
      ScenariosRun(st2, feature, featureTokens, scenarios[1..]);
      RunAppend(st, header, DirectiveLines(sc.directives));
      RunAppend(st, header + DirectiveLines(sc.directives), RenderScenarios(scenarios[1..]));
    }
  }

  /** The preamble that the next feature header keeps: only before the first feature. */
  function Carried(st: ParseState): seq<string> {
    if st.currentFeature.None? then st.settingsSeenFeature else []
  }

  lemma {:induction false} FeaturesRun(st: ParseState, features: seq<FeatureBlock>)
    requires ScenarioBufferClean(st)
    requires WellNamed(Document([], features))
    ensures ApplySeen(Run(st, RenderFeatures(features))) == AddAll(ApplySeen(st), FeatureEntries(features, Carried(st)))
    decreases |features|
  {
    if features != [] {
      var f := features[0];
      var header := [FeatureHeader(f.name)];
      var st1 := Step(st, FeatureHeader(f.name));
      assert st1 == ParseState(Some(f.name), None, [], Carried(st), ApplySeen(st));
      assert Run(st, header) == st1;
      FeatureScopeDirectives(st1, f.directives);
      var st2 := Run(st1, DirectiveLines(f.directives));
      var tokens := Carried(st) + Flatten(f.directives);
      assert ApplySeen(st2) == ApplySeen(st);
      ScenariosRun(st2, f.name, tokens, f.scenarios);
      var st3 := Run(st2, RenderScenarios(f.scenarios));
      assert WellNamed(Document([], features[1..])) by {
        forall i | 0 <= i < |features[1..]| ensures features[1..][i] == features[i + 1] { }
      }
      FeaturesRun(st3, features[1..]);
      RunAppend(st, header, DirectiveLines(f.directives));
      RunAppend(st, header + DirectiveLines(f.directives), RenderScenarios(f.scenarios));
      RunAppend(st, header + DirectiveLines(f.directives) + RenderScenarios(f.scenarios), RenderFeatures(features[1..]));
      AddAllAppend(ApplySeen(st), ScenarioEntries(f.name, tokens, f.scenarios), FeatureEntries(features[1..], []));
    }
  }

  /** The extractor over the lines of a document, from a given start. */
  lemma RunDocument(settings: Option<Settings>, doc: Document)
    requires WellNamed(doc)
    ensures ApplySeen(Run(Start(settings), Render(doc))) == AddAll(settings.GetOr(map[]), Entries(doc))
  {
    FeatureScopeDirectives(Start(settings), doc.preamble);
    var st := Run(Start(settings), DirectiveLines(doc.preamble));
    assert [] + Flatten(doc.preamble) == Flatten(doc.preamble);
    assert Carried(st) == Flatten(doc.preamble);
    assert WellNamed(Document([], doc.features));
    FeaturesRun(st, doc.features);
    RunAppend(Start(settings), DirectiveLines(doc.preamble), RenderFeatures(doc.features));
  }

  /**
   * The extractor on any feature file whose meaningful lines form a document: the map
   * passed in (or an empty one) gains exactly the document's additions, in order. So each
   * scenario's list is extended with its own tokens, then, for the first feature only,
   * the tokens before any feature, then the tokens of its feature's opening section.
   */
  lemma ParseDocument(fileContents: string, settings: Option<Settings>, doc: Document)
    requires WellNamed(doc)
    requires Meaningful(ClassifyAll(LinesOf(fileContents))) == Render(doc)
    ensures ParseSettings(fileContents, settings) == AddAll(settings.GetOr(map[]), Entries(doc))
  {
    OtherLinesIgnored(Start(settings), ClassifyAll(LinesOf(fileContents)));
    RunDocument(settings, doc);
  }

  // ---------------------------------------------------------------------------------------
  // Which scenario receives which token
  // ---------------------------------------------------------------------------------------

  /** The additions of scenario `j` of feature `i`, with the preamble carried into feature 0. */
  lemma {:induction false} FeatureEntriesInclude(features: seq<FeatureBlock>, carried: seq<string>, i: nat, j: nat)
    requires i < |features| && j < |features[i].scenarios|
    ensures exists k :: 0 <= k < |FeatureEntries(features, carried)| &&
              FeatureEntries(features, carried)[k] ==
              Entry(features[i].name, features[i].scenarios[j].name, ScopedTokensIn(features, carried, i, j))
    decreases |features|
  {
    var f := features[0];
    var first := ScenarioEntries(f.name, carried + Flatten(f.directives), f.scenarios);
    var rest := FeatureEntries(features[1..], []);
    assert FeatureEntries(features, carried) == first + rest;
    if i == 0 {
      assert (first + rest)[j] == first[j];
    } else {
      FeatureEntriesInclude(features[1..], [], i - 1, j);
      var k :| 0 <= k < |rest| && rest[k] ==
        Entry(features[1..][i - 1].name, features[1..][i - 1].scenarios[j].name, ScopedTokensIn(features[1..], [], i - 1, j));
      assert (first + rest)[|first| + k] == rest[k];
      assert ScopedTokensIn(features[1..], [], i - 1, j) == ScopedTokensIn(features, carried, i, j);
    }
  }

  /** Every addition is that of some scenario `j` of some feature `i`. */
  lemma {:induction false} FeatureEntriesFrom(features: seq<FeatureBlock>, carried: seq<string>, k: nat)
    requires k < |FeatureEntries(features, carried)|
    ensures exists i, j :: 0 <= i < |features| && 0 <= j < |features[i].scenarios| &&
              FeatureEntries(features, carried)[k] ==
              Entry(features[i].name, features[i].scenarios[j].name, ScopedTokensIn(features, carried, i, j))
    decreases |features|
  {
    var f := features[0];
    var first := ScenarioEntries(f.name, carried + Flatten(f.directives), f.scenarios);
    var rest := FeatureEntries(features[1..], []);
    assert FeatureEntries(features, carried) == first + rest;
    if k < |first| {
      assert (first + rest)[k] == first[k];
      assert FeatureEntries(features, carried)[k] ==
        Entry(features[0].name, features[0].scenarios[k].name, ScopedTokensIn(features, carried, 0, k));
    } else {
      FeatureEntriesFrom(features[1..], [], k - |first|);
      assert (first + rest)[k] == rest[k - |first|];
      var i, j :| 0 <= i < |features[1..]| && 0 <= j < |features[1..][i].scenarios| &&
        rest[k - |first|] ==
        Entry(features[1..][i].name, features[1..][i].scenarios[j].name, ScopedTokensIn(features[1..], [], i, j));
      assert features[1..][i] == features[i + 1];
      assert ScopedTokensIn(features[1..], [], i, j) == ScopedTokensIn(features, carried, i + 1, j);
    }
  }

  /** The addition of scenario `j` of feature `i` carries exactly its scoped tokens. */
  lemma EntryOfScenario(doc: Document, i: nat, j: nat)
    requires i < |doc.features| && j < |doc.features[i].scenarios|
    ensures exists k :: 0 <= k < |Entries(doc)| &&
              Entries(doc)[k] == Entry(doc.features[i].name, doc.features[i].scenarios[j].name, ScopedTokens(doc, i, j))
  {
    var es := FeatureEntries(doc.features, Flatten(doc.preamble));
    FeatureEntriesInclude(doc.features, Flatten(doc.preamble), i, j);
    var k :| 0 <= k < |es| &&
      es[k] == Entry(doc.features[i].name, doc.features[i].scenarios[j].name, ScopedTokensIn(doc.features, Flatten(doc.preamble), i, j));
    assert Entries(doc)[k] == es[k];
  }

  /** Each addition is the addition of one scenario of the document. */
  lemma ScenarioOfEntry(doc: Document, k: nat)
    requires k < |Entries(doc)|
    ensures exists i, j :: 0 <= i < |doc.features| && 0 <= j < |doc.features[i].scenarios| &&
              Entries(doc)[k] == Entry(doc.features[i].name, doc.features[i].scenarios[j].name, ScopedTokens(doc, i, j))
  {
    FeatureEntriesFrom(doc.features, Flatten(doc.preamble), k);
  }

  /**
   * A directive reaches every scenario it is scoped to: one inside the scenario, one in its
   * feature before the first scenario, and, for the first feature, one before any feature.
   */
  lemma DirectivesReachTheirScenarios(fileContents: string, settings: Option<Settings>, doc: Document, i: nat, j: nat, t: string)
    requires WellNamed(doc)
    requires Meaningful(ClassifyAll(LinesOf(fileContents))) == Render(doc)
    requires i < |doc.features| && j < |doc.features[i].scenarios|
    requires t in ScopedTokens(doc, i, j)
    ensures t in Lookup(ParseSettings(fileContents, settings), doc.features[i].name, doc.features[i].scenarios[j].name)
  {
    ParseDocument(fileContents, settings, doc);
    EntryOfScenario(doc, i, j);
    var k :| 0 <= k < |Entries(doc)| &&
      Entries(doc)[k] == Entry(doc.features[i].name, doc.features[i].scenarios[j].name, ScopedTokens(doc, i, j));
    TokensForHas(Entries(doc), k, t);
    AddAllLookup(settings.GetOr(map[]), Entries(doc), doc.features[i].name, doc.features[i].scenarios[j].name);
  }

  /** A scenario of the document: feature `i`, scenario `j`, with the given names. */
  predicate NamesScenario(doc: Document, i: int, j: int, feature: string, scenario: string) {
    0 <= i < |doc.features| && 0 <= j < |doc.features[i].scenarios| &&
    doc.features[i].name == feature && doc.features[i].scenarios[j].name == scenario
  }

  /**
   * Conversely, every token in a pair's list was there before or is a scoped token of a
   * scenario of the document with exactly those names.
   */
  lemma TokensComeFromTheirScope(fileContents: string, settings: Option<Settings>, doc: Document, feature: string, scenario: string, t: string)
    requires WellNamed(doc)
    requires Meaningful(ClassifyAll(LinesOf(fileContents))) == Render(doc)
    requires t in Lookup(ParseSettings(fileContents, settings), feature, scenario)
    ensures t in Lookup(settings.GetOr(map[]), feature, scenario) ||
            exists i, j :: NamesScenario(doc, i, j, feature, scenario) && t in ScopedTokens(doc, i, j)
  {
    var m := settings.GetOr(map[]);
    ParseDocument(fileContents, settings, doc);
    AddAllLookup(m, Entries(doc), feature, scenario);
    if t !in Lookup(m, feature, scenario) {
      TokensForFrom(Entries(doc), feature, scenario, t);
      var k :| 0 <= k < |Entries(doc)| && Entries(doc)[k].feature == feature &&
        Entries(doc)[k].scenario == scenario && t in Entries(doc)[k].tokens;
      ScenarioOfEntry(doc, k);
      var i, j :| 0 <= i < |doc.features| && 0 <= j < |doc.features[i].scenarios| &&
        Entries(doc)[k] == Entry(doc.features[i].name, doc.features[i].scenarios[j].name, ScopedTokens(doc, i, j));
      assert NamesScenario(doc, i, j, feature, scenario);
    }
  }

  /**
   * A directive written inside one scenario, and nowhere else, reaches no other pair:
   * in particular no sibling scenario with another name receives it.
   */
  lemma ScenarioDirectivesStayLocal(fileContents: string, settings: Option<Settings>, doc: Document,
                                    i: nat, j: nat, t: string, feature: string, scenario: string)
    requires WellNamed(doc)
    requires Meaningful(ClassifyAll(LinesOf(fileContents))) == Render(doc)
    requires i < |doc.features| && j < |doc.features[i].scenarios|
    requires t !in Flatten(doc.preamble)
    requires forall i' :: 0 <= i' < |doc.features| ==> t !in Flatten(doc.features[i'].directives)
    requires forall i', j' :: 0 <= i' < |doc.features| && 0 <= j' < |doc.features[i'].scenarios| && (i' != i || j' != j) ==>
               t !in Flatten(doc.features[i'].scenarios[j'].directives)
    requires t !in Lookup(settings.GetOr(map[]), feature, scenario)
    requires t in Lookup(ParseSettings(fileContents, settings), feature, scenario)
    ensures feature == doc.features[i].name && scenario == doc.features[i].scenarios[j].name
  {
    TokensComeFromTheirScope(fileContents, settings, doc, feature, scenario, t);
    var i', j' :| NamesScenario(doc, i', j', feature, scenario) && t in ScopedTokens(doc, i', j');
    assert t in Flatten(doc.features[i'].scenarios[j'].directives);
  }

  /**
   * A pair has a list afterwards exactly when it had one before or some scenario of the
   * document has those names.
   */
  lemma EntriesOnlyForScenarios(fileContents: string, settings: Option<Settings>, doc: Document, feature: string, scenario: string)
    requires WellNamed(doc)
    requires Meaningful(ClassifyAll(LinesOf(fileContents))) == Render(doc)
    ensures HasEntry(ParseSettings(fileContents, settings), feature, scenario) <==>
              HasEntry(settings.GetOr(map[]), feature, scenario) || exists i, j :: NamesScenario(doc, i, j, feature, scenario)
  {
    var m := settings.GetOr(map[]);
    var es := Entries(doc);
    ParseDocument(fileContents, settings, doc);
    AddAllHasEntry(m, es, feature, scenario);
    if Mentions(es, feature, scenario) {
      var k :| 0 <= k < |es| && es[k].feature == feature && es[k].scenario == scenario;
      ScenarioOfEntry(doc, k);
      var i, j :| 0 <= i < |doc.features| && 0 <= j < |doc.features[i].scenarios| &&
        es[k] == Entry(doc.features[i].name, doc.features[i].scenarios[j].name, ScopedTokens(doc, i, j));
      assert NamesScenario(doc, i, j, feature, scenario);
    }
    if exists i, j :: NamesScenario(doc, i, j, feature, scenario) {
      var i, j :| NamesScenario(doc, i, j, feature, scenario);
      EntryOfScenario(doc, i, j);
    }
  }

  /** Some feature of the document with this name has at least one scenario. */
  predicate HasScenarios(doc: Document, feature: string) {
    exists i :: 0 <= i < |doc.features| && doc.features[i].name == feature && |doc.features[i].scenarios| > 0
  }

  /** A feature key appears only through a scenario: a feature without scenarios creates nothing. */
  lemma FeatureKeysOnlyWithScenarios(fileContents: string, settings: Option<Settings>, doc: Document, feature: string)
    requires WellNamed(doc)
    requires Meaningful(ClassifyAll(LinesOf(fileContents))) == Render(doc)
    ensures feature in ParseSettings(fileContents, settings) <==> feature in settings.GetOr(map[]) || HasScenarios(doc, feature)
  {
    var m := settings.GetOr(map[]);
    var es := Entries(doc);
    ParseDocument(fileContents, settings, doc);
    AddAllKeys(m, es, feature);
    if exists k :: 0 <= k < |es| && es[k].feature == feature {
      var k :| 0 <= k < |es| && es[k].feature == feature;
      ScenarioOfEntry(doc, k);
      var i, j :| 0 <= i < |doc.features| && 0 <= j < |doc.features[i].scenarios| &&
        es[k] == Entry(doc.features[i].name, doc.features[i].scenarios[j].name, ScopedTokens(doc, i, j));
      assert doc.features[i].name == feature && |doc.features[i].scenarios| > 0;
    }
    if HasScenarios(doc, feature) {
      var i :| 0 <= i < |doc.features| && doc.features[i].name == feature && |doc.features[i].scenarios| > 0;
      EntryOfScenario(doc, i, 0);
    }
  }

  /**
   * When no two scenarios of the document share both names, each scenario's list is the
   * list it had before followed by exactly its scoped tokens.
   */
  lemma ExactScopedTokens(fileContents: string, settings: Option<Settings>, doc: Document, i: nat, j: nat)
    requires WellNamed(doc)
    requires Meaningful(ClassifyAll(LinesOf(fileContents))) == Render(doc)
    requires PairsDistinct(Entries(doc))
    requires i < |doc.features| && j < |doc.features[i].scenarios|
    ensures Lookup(ParseSettings(fileContents, settings), doc.features[i].name, doc.features[i].scenarios[j].name)
            == Lookup(settings.GetOr(map[]), doc.features[i].name, doc.features[i].scenarios[j].name) + ScopedTokens(doc, i, j)
  {
    var f, s := doc.features[i].name, doc.features[i].scenarios[j].name;
    ParseDocument(fileContents, settings, doc);
    EntryOfScenario(doc, i, j);
    var k :| 0 <= k < |Entries(doc)| && Entries(doc)[k] == Entry(f, s, ScopedTokens(doc, i, j));
    TokensForDistinct(Entries(doc), k);
    AddAllLookup(settings.GetOr(map[]), Entries(doc), f, s);
  }

  /** Tokens written before any feature header reach every scenario of the first feature. */
  lemma PreambleReachesFirstFeature(fileContents: string, settings: Option<Settings>, doc: Document, j: nat, t: string)
    requires WellNamed(doc)
    requires Meaningful(ClassifyAll(LinesOf(fileContents))) == Render(doc)
    requires |doc.features| > 0 && j < |doc.features[0].scenarios|
    requires t in Flatten(doc.preamble)
    ensures t in Lookup(ParseSettings(fileContents, settings), doc.features[0].name, doc.features[0].scenarios[j].name)
  {
    DirectivesReachTheirScenarios(fileContents, settings, doc, 0, j, t);
  }

  /** Tokens between a feature header and its first scenario reach every scenario of that feature. */
  lemma FeatureDirectivesReachEveryScenario(fileContents: string, settings: Option<Settings>, doc: Document, i: nat, j: nat, t: string)
    requires WellNamed(doc)
    requires Meaningful(ClassifyAll(LinesOf(fileContents))) == Render(doc)
    requires i < |doc.features| && j < |doc.features[i].scenarios|
    requires t in Flatten(doc.features[i].directives)
    ensures t in Lookup(ParseSettings(fileContents, settings), doc.features[i].name, doc.features[i].scenarios[j].name)
  {
    DirectivesReachTheirScenarios(fileContents, settings, doc, i, j, t);
  }

  /** The three lines of a file with one file-level directive, one feature and one scenario. */
  function SingleScenarioLines(token: string, feature: string, scenario: string): seq<string> {
    [DirectiveMarker + " " + token, "Feature: " + feature, "Scenario: " + scenario]
  }

  lemma NoNewlineInConcat(a: string, b: string)
    requires NoLineTerminator(a) && NoLineTerminator(b)
    ensures '\n' !in a + b
  {
    assert forall i :: 0 <= i < |a + b| ==> (a + b)[i] == if i < |a| then a[i] else b[i - |a|];
  }

  lemma SingleScenarioLinesOf(token: string, feature: string, scenario: string)
    requires IsPlainName(token) && IsPlainName(feature) && IsPlainName(scenario) && scenario != []
    ensures LinesOf(Join(SingleScenarioLines(token, feature, scenario), '\n')) == SingleScenarioLines(token, feature, scenario)
  {
    var l := SingleScenarioLines(token, feature, scenario);
    assert l[1..][1..] == [l[2]];
    assert Join(l[1..][1..], '\n') == l[2];
    assert Join(l[1..], '\n') == l[1] + ['\n'] + l[2];
    var text := Join(l, '\n');
    assert text == l[0] + ['\n'] + (l[1] + ['\n'] + l[2]);
    assert text[0] == '#';
    assert text[|text| - 1] == scenario[|scenario| - 1];
    TrimOfTrimmed(text);
    forall k | 0 <= k < |l|
      ensures '\n' !in l[k]
    {
      var prefix := if k == 0 then DirectiveMarker + " " else if k == 1 then "Feature: " else "Scenario: ";
      var name := if k == 0 then token else if k == 1 then feature else scenario;
      assert l[k] == prefix + name;
      assert NoLineTerminator(prefix);
      NoNewlineInConcat(prefix, name);
    }
    SplitJoin(l, '\n');
  }

  lemma SingleScenarioClassified(token: string, feature: string, scenario: string)
    requires IsPlainName(token) && ' ' !in token && token != []
    requires IsPlainName(feature) && IsPlainName(scenario) && scenario != []
    ensures ClassifyAll(SingleScenarioLines(token, feature, scenario))
         == [Directive([token]), FeatureHeader(feature), ScenarioHeader(scenario)]
  {
    var l := SingleScenarioLines(token, feature, scenario);
    assert |l| == 3;
    var c := ClassifyAll(l);
    assert c[0] == Directive([token]) by {
      assert l[0] == DirectiveMarker + " " + token;
      DirectiveToken(token);
    }
    assert c[1] == FeatureHeader(feature) by {
      assert l[1] == "Feature: " + feature;
      FeatureHeaderLine(feature);
    }
    assert c[2] == ScenarioHeader(scenario) by {
      assert l[2] == "Scenario: " + scenario;
      ScenarioHeaderLine(scenario);
    }
    assert c == [c[0], c[1], c[2]];
  }

  lemma DirectiveToken(token: string)
    requires IsPlainName(token) && ' ' !in token && token != []
    ensures Classify(DirectiveMarker + " " + token) == Directive([token])
  {
    assert Join([token], ' ') == token;
    DirectiveLine([token]);
  }

  /** The document a single-scenario file describes. */
  function SingleScenarioDocument(token: string, feature: string, scenario: string): Document {
    Document([[token]], [FeatureBlock(feature, [], [ScenarioBlock(scenario, [])])])
  }

  lemma SingleScenarioRendered(token: string, feature: string, scenario: string)
    ensures Render(SingleScenarioDocument(token, feature, scenario))
         == Meaningful([Directive([token]), FeatureHeader(feature), ScenarioHeader(scenario)])
  {
    var doc := SingleScenarioDocument(token, feature, scenario);
    var lines := [Directive([token]), FeatureHeader(feature), ScenarioHeader(scenario)];
    assert lines[1..][1..][1..] == [];
    assert Meaningful(lines[1..][1..]) == lines[1..][1..];
    assert Meaningful(lines[1..]) == lines[1..];
    assert Meaningful(lines) == lines;
    assert doc.preamble[1..] == [] && doc.features[1..] == [];
    assert doc.features[0].scenarios[1..] == [];
    assert DirectiveLines(doc.preamble) == [Directive([token])];
    assert RenderScenarios(doc.features[0].scenarios) == [ScenarioHeader(scenario)];
    assert RenderFeatures(doc.features) == [FeatureHeader(feature), ScenarioHeader(scenario)];
  }

  lemma SingleScenarioEntries(token: string, feature: string, scenario: string)
    ensures AddAll(map[], Entries(SingleScenarioDocument(token, feature, scenario)))
         == map[feature := map[scenario := [token]]]
  {
    var doc := SingleScenarioDocument(token, feature, scenario);
    assert doc.preamble[1..] == [] && doc.features[1..] == [];
    assert Flatten(doc.preamble) == [token];
    assert [token] + Flatten(doc.features[0].directives) == [token];
    var f := doc.features[0];
    assert Flatten(f.scenarios[0].directives) == [];
    assert Flatten(f.scenarios[0].directives) + [token] == [token];
    assert ScenarioEntries(feature, [token], f.scenarios) == [Entry(feature, scenario, [token])];
    assert FeatureEntries(doc.features[1..], []) == [];
    var es := Entries(doc);
    assert es == [Entry(feature, scenario, [token])];
    assert es[1..] == [];
  }

  /**
   * A file whose first line is a directive such as `#karma-cucumberjs allowPending`,
   * followed by a feature header such as `Feature: Login` and a scenario header such as
   * `Scenario: Valid user`: for any names, the file-level token lands on the one scenario
   * of the one feature.
   */
  lemma SingleScenarioFile(token: string, feature: string, scenario: string)
    requires IsPlainName(token) && ' ' !in token && token != []
    requires IsPlainName(feature) && IsPlainName(scenario) && feature != [] && scenario != []
    ensures ParseSettings(Join(SingleScenarioLines(token, feature, scenario), '\n'), None)
         == map[feature := map[scenario := [token]]]
  {
    var text := Join(SingleScenarioLines(token, feature, scenario), '\n');
    var doc := SingleScenarioDocument(token, feature, scenario);
    SingleScenarioLinesOf(token, feature, scenario);
    SingleScenarioClassified(token, feature, scenario);
    SingleScenarioRendered(token, feature, scenario);
    ParseDocument(text, None, doc);
    SingleScenarioEntries(token, feature, scenario);
  }
}
