/**
 * The settings map built from the `#karma-cucumberjs` directives of the feature files:
 * feature name -> scenario name -> list of directive tokens, in the order they were added.
 */
module Settings {

  type Settings = map<string, map<string, seq<string>>>

  /** A (feature, scenario) pair has a list in the map, possibly an empty one. */
  predicate HasEntry(m: Settings, feature: string, scenario: string) {
    feature in m && scenario in m[feature]
  }

  /** The token list of a pair, or the empty list when the pair has none. */
  function Lookup(m: Settings, feature: string, scenario: string): seq<string> {
    if HasEntry(m, feature, scenario) then m[feature][scenario] else []
  }

  /**
   * Extends the list of one pair, creating the feature's map and the scenario's list
   * when they are absent. This is the body of the flush in the parser.
   */
  function Add(m: Settings, feature: string, scenario: string, tokens: seq<string>): (r: Settings)
    ensures r.Keys == m.Keys + {feature}
    ensures HasEntry(r, feature, scenario)
    ensures Lookup(r, feature, scenario) == Lookup(m, feature, scenario) + tokens
    ensures forall f, s :: (f != feature || s != scenario) ==>
              HasEntry(r, f, s) == HasEntry(m, f, s) && Lookup(r, f, s) == Lookup(m, f, s)
  {
    var lists := if feature in m then m[feature] else map[];
    var old_ := if scenario in lists then lists[scenario] else [];
    m[feature := lists[scenario := old_ + tokens]]
  }

  /** One pending addition: a pair and the tokens it receives. */
  datatype Entry = Entry(feature: string, scenario: string, tokens: seq<string>)

  /** Applies the additions in order. */
  function AddAll(m: Settings, entries: seq<Entry>): Settings
    decreases |entries|
  {
    if entries == [] then m
    else AddAll(Add(m, entries[0].feature, entries[0].scenario, entries[0].tokens), entries[1..])
  }

  /** The tokens the additions give to one pair, concatenated in order. */
  function TokensFor(entries: seq<Entry>, feature: string, scenario: string): seq<string>
    decreases |entries|
  {
    if entries == [] then []
    else
      (if entries[0].feature == feature && entries[0].scenario == scenario then entries[0].tokens else [])
      + TokensFor(entries[1..], feature, scenario)
  }

  /** Some addition names the pair. */
  predicate Mentions(entries: seq<Entry>, feature: string, scenario: string) {
    exists i :: 0 <= i < |entries| && entries[i].feature == feature && entries[i].scenario == scenario
  }

  /**
   * What a sequence of additions does to the list of one pair: the old list followed by
   * the tokens of every addition naming the pair. Nothing is ever removed or replaced.
   */
  lemma {:induction false} AddAllLookup(m: Settings, entries: seq<Entry>, feature: string, scenario: string)
    ensures Lookup(AddAll(m, entries), feature, scenario) == Lookup(m, feature, scenario) + TokensFor(entries, feature, scenario)
    decreases |entries|
  {
    if entries != [] {
      var e := entries[0];
      AddAllLookup(Add(m, e.feature, e.scenario, e.tokens), entries[1..], feature, scenario);
    }
  }

  /** A pair has a list afterwards exactly when it had one before or some addition names it. */
  lemma {:induction false} AddAllHasEntry(m: Settings, entries: seq<Entry>, feature: string, scenario: string)
    ensures HasEntry(AddAll(m, entries), feature, scenario) <==> HasEntry(m, feature, scenario) || Mentions(entries, feature, scenario)
    decreases |entries|
  {
    if entries != [] {
      var e := entries[0];
      AddAllHasEntry(Add(m, e.feature, e.scenario, e.tokens), entries[1..], feature, scenario);
      if Mentions(entries, feature, scenario) && !(e.feature == feature && e.scenario == scenario) {
        var i :| 0 <= i < |entries| && entries[i].feature == feature && entries[i].scenario == scenario;
        assert entries[1..][i - 1] == entries[i];
      }
      if Mentions(entries[1..], feature, scenario) {
        var i :| 0 <= i < |entries[1..]| && entries[1..][i].feature == feature && entries[1..][i].scenario == scenario;
        assert entries[i + 1] == entries[1..][i];
      }
    }
  }

  /** A feature is a key afterwards exactly when it was one before or some addition names it. */
  lemma {:induction false} AddAllKeys(m: Settings, entries: seq<Entry>, feature: string)
    ensures feature in AddAll(m, entries) <==>
              feature in m || exists i :: 0 <= i < |entries| && entries[i].feature == feature
    decreases |entries|
  {
    if entries != [] {
      var e := entries[0];
      AddAllKeys(Add(m, e.feature, e.scenario, e.tokens), entries[1..], feature);
      if exists i :: 0 <= i < |entries[1..]| && entries[1..][i].feature == feature {
        var i :| 0 <= i < |entries[1..]| && entries[1..][i].feature == feature;
        assert entries[i + 1] == entries[1..][i];
      }
      if exists i :: 0 <= i < |entries| && entries[i].feature == feature {
        var i :| 0 <= i < |entries| && entries[i].feature == feature;
        if i > 0 { assert entries[1..][i - 1] == entries[i]; }
      }
    }
  }

  lemma {:induction false} AddAllAppend(m: Settings, a: seq<Entry>, b: seq<Entry>)
    ensures AddAll(m, a + b) == AddAll(AddAll(m, a), b)
    decreases |a|
  {
    if a == [] {
      assert a + b == b;
    } else {
      assert (a + b)[1..] == a[1..] + b;
      AddAllAppend(Add(m, a[0].feature, a[0].scenario, a[0].tokens), a[1..], b);
    }
  }

  /** Every token an addition brings to a pair is in what the additions give that pair. */
  lemma {:induction false} TokensForHas(entries: seq<Entry>, k: nat, t: string)
    requires k < |entries| && t in entries[k].tokens
    ensures t in TokensFor(entries, entries[k].feature, entries[k].scenario)
    decreases |entries|
  {
    if k > 0 {
      TokensForHas(entries[1..], k - 1, t);
    }
  }

  /** A token the additions give a pair comes from an addition naming that pair. */
  lemma {:induction false} TokensForFrom(entries: seq<Entry>, feature: string, scenario: string, t: string)
    requires t in TokensFor(entries, feature, scenario)
    ensures exists k :: 0 <= k < |entries| && entries[k].feature == feature && entries[k].scenario == scenario && t in entries[k].tokens
    decreases |entries|
  {
    var e := entries[0];
    if !(e.feature == feature && e.scenario == scenario && t in e.tokens) {
      TokensForFrom(entries[1..], feature, scenario, t);
      var k :| 0 <= k < |entries[1..]| && entries[1..][k].feature == feature && entries[1..][k].scenario == scenario && t in entries[1..][k].tokens;
      assert entries[k + 1] == entries[1..][k];
    }
  }

  /** No two additions name the same pair. */
  predicate PairsDistinct(entries: seq<Entry>) {
    forall k1, k2 :: 0 <= k1 < k2 < |entries| ==>
      entries[k1].feature != entries[k2].feature || entries[k1].scenario != entries[k2].scenario
  }

  /** When every pair is named once, a pair receives exactly the tokens of its addition. */
  lemma {:induction false} TokensForDistinct(entries: seq<Entry>, k: nat)
    requires k < |entries| && PairsDistinct(entries)
    ensures TokensFor(entries, entries[k].feature, entries[k].scenario) == entries[k].tokens
    decreases |entries|
  {
    if k > 0 {
      TokensForDistinct(entries[1..], k - 1);
      assert entries[1..][k - 1] == entries[k];
    } else {
      TokensForNone(entries[1..], entries[0].feature, entries[0].scenario);
    }
  }

  /** Additions that never name a pair give it nothing. */
  lemma {:induction false} TokensForNone(entries: seq<Entry>, feature: string, scenario: string)
    requires forall k :: 0 <= k < |entries| ==> entries[k].feature != feature || entries[k].scenario != scenario
    ensures TokensFor(entries, feature, scenario) == []
    decreases |entries|
  {
    if entries != [] {
      TokensForNone(entries[1..], feature, scenario);
    }
  }
}
