# karma-cucumberjs adapter core, modelled in Dafny

karma-cucumberjs runs Cucumber feature files inside Karma. This project models its two
sequential pieces of logic and proves properties of them.

**The loading half** is `CucumberRunner`, in `cucumber_runner.dfy`.
- It picks the `.feature` files out of Karma's file keys.
- It loads each file with an abstract `loadFile` function.
- It threads one settings map through the files. The map runs feature name → scenario
  name → list of directive tokens.
- The tokens come from the directive extractor `parseSettingsFromFeature`. It reads
  `#karma-cucumberjs token…` comment lines and gives each token to scenarios by a small
  state machine:
  - tokens after a `Scenario:` header belong to that scenario;
  - tokens between a `Feature:` header and its first scenario belong to every scenario
    of that feature;
  - tokens before the first `Feature:` header join the first feature's tokens.

**The reporting half** is `KarmaListener`, in `karma_listener.dfy`.
- It consumes Cucumber's event stream: `BeforeFeature`, `BeforeScenario`, `BeforeStep`
  and `StepResult`.
- It counts steps and reports `karma.info({total})`.
- It classifies each step result, including the `allowPending` directive's leniency.
- It logs failures and reports one `karma.result` record per step.
- It always calls the continuation it is given.

How the modules map to the source:
- `Wrappers` holds `Option`.
- `JsText` models the JavaScript string operations used: `trim` with the `\s` set,
  `split` on one character, suffix test, and ASCII case-insensitive prefix test.
- `Settings` holds the settings map and the fold of additions into it.
- `FeatureLines` is the line classifier standing in for the three regular expressions.
- `CucumberRunner` holds the extractor as a state machine plus an imperative method
  proved equal to it, and the runner object.
- `SettingsScoping` describes a feature file as a structured document and proves which
  scenario list every directive token reaches. A document has non-empty names and no
  scenario header before the first feature header. Files outside that shape (a stray
  scenario header, an empty name) are covered by separate lemmas over the extractor in
  `CucumberRunner`: `NewEntryFromHeaders`, `StrayScenarioDirectivesReachFirstFeature`,
  `EmptyScenarioNameKeepsFeatureScope` and `NamedScenarioKeepsScenarioScope`.
- `KarmaListener` holds the event entities, one state-transforming function per handler,
  and the listener object whose methods are proved to follow them.
- `ListenerProperties` holds the lemmas over single events and whole event streams.

Modelling choices:
- **Exceptions.** A JavaScript exception thrown by a handler is modelled as a `completed`
  flag set to false. The effects the handler made before the throw stay in the state,
  and `hear` swallows the throw as the source does.
- **Outputs.** `karma.info`, `karma.result` and `hear`'s callback are calls to the
  outside. They are appended, in order, to one `outputs` sequence.
- **Clock.** The wall clock (`new Date().getTime()`) is a parameter `now`.
- **File loading.** Reading a file is a parameter `loadFile`.

In these places the model follows the code:
- **Line test order.** The extractor tests the feature header first, then the scenario
  header, then the directive comment. `FeatureLines.ShapesDisjoint` proves that no line
  has two of these shapes, so the order does not change any result.
- **Initial settings value.** The runner's `featureSettings` starts as an empty array
  (cucumber_runner.js:11), not an object. Arrays are truthy in JavaScript, so the first
  parse keeps it and stores names as its properties. The model uses an empty map, which
  behaves the same for every name except the array's own properties (see "Left out").
- **Elapsed time.** The elapsed time of a step that is not skipped is measured from
  `currentStep._time` (karma_listener.js:122). Only scenarios are stamped (line 40). The
  model keeps this: a step carries an optional `_time` that no handler sets.
  `ListenerProperties.ResultTimes` proves that, while the engine's steps carry none, every
  result that is not skipped reports `NaN`.

## Model

| member | source | states |
|---|---|---|
| JsText.TrimSpec | source/adapter/cucumber_runner.js:41 | `trim` removes exactly a white prefix and a white suffix (JavaScript's `\s` set), and the result starts and ends with non-white characters |
| JsText.TrimOfTrimmed | source/adapter/cucumber_runner.js:71 | trimming an already trimmed name changes nothing |
| JsText.TrimAfterWhite | source/adapter/cucumber_runner.js:47-49 | white text before a string does not change its trim (the optional space after a keyword) |
| JsText.Split | source/adapter/cucumber_runner.js:41 | `split` on one character gives at least one piece, and no piece contains the separator |
| JsText.JoinSplit | source/adapter/cucumber_runner.js:41 | joining the pieces of a split with the separator gives back the text |
| JsText.SplitJoin | source/adapter/cucumber_runner.js:92 | splitting a join of separator-free pieces gives back the pieces |
| Settings.Add | source/adapter/cucumber_runner.js:58-64 | one flush creates the feature's and the scenario's entries if missing, appends the tokens to that list, and leaves every other list and key as it was |
| Settings.AddAllLookup | source/adapter/cucumber_runner.js:64 | after a sequence of flushes, a pair's list is its old list followed by the tokens each flush for that pair added, in order, with duplicates kept |
| Settings.AddAllHasEntry | source/adapter/cucumber_runner.js:58-63 | a pair has a list after the flushes iff it had one before or some flush was for it |
| Settings.AddAllKeys | source/adapter/cucumber_runner.js:58-60 | a feature key exists after the flushes iff it existed before or some flush was for that feature |
| FeatureLines.CaptureTrim | source/adapter/cucumber_runner.js:47-49 | the trimmed captured group equals the trimmed text after the keyword, whether or not the optional space is there |
| FeatureLines.MatchAfter | source/adapter/cucumber_runner.js:47-49 | a line matches if and only if, after its leading white space, it starts with the keyword in any ASCII letter case, followed by a non-empty rest without a line terminator; the trimmed capture is the trimmed rest |
| FeatureLines.ShapesDisjoint | source/adapter/cucumber_runner.js:70-91 | no line is both a feature header and a scenario header or directive, and no scenario header is a directive |
| FeatureLines.Classify | source/adapter/cucumber_runner.js:69-98 | header names come out trimmed; a directive line gives at least one token, and no token contains a space |
| FeatureLines.KeywordLine | source/adapter/cucumber_runner.js:47-49 | a keyword in any letter case, one space and a trimmed name match the pattern and capture exactly that name |
| FeatureLines.FeatureHeaderLine | source/adapter/cucumber_runner.js:70-71 | `Feature: n` is a feature header named `n` |
| FeatureLines.ScenarioHeaderLine | source/adapter/cucumber_runner.js:83-84 | `Scenario: n` is a scenario header named `n`, not a feature header |
| FeatureLines.DirectiveText | source/adapter/cucumber_runner.js:91-92 | `#karma-cucumberjs j` is a directive whose tokens are `j` split on spaces |
| FeatureLines.DirectiveLine | source/adapter/cucumber_runner.js:91-92 | `#karma-cucumberjs t1 t2 …` is a directive with exactly the tokens `t1`, `t2`, … |
| CucumberRunner.ParseSettingsFromFeature | source/adapter/cucumber_runner.js:40-104 | the line loop returns the map that folding every classified line through the extractor's step function and flushing once more gives |
| CucumberRunner.RunAppend | source/adapter/cucumber_runner.js:68-99 | running the lines of two consecutive parts of a file is running the first, then the second from where it stopped |
| CucumberRunner.OtherLinesIgnored | source/adapter/cucumber_runner.js:68-99 | lines of none of the three shapes leave every variable of the extractor as it was |
| CucumberRunner.RunKeepsScenarioBufferClean | source/adapter/cucumber_runner.js:76-89 | the scenario buffer holds tokens only while a scenario is current |
| CucumberRunner.ApplySeen | source/adapter/cucumber_runner.js:56-66 | a flush keeps every key and only extends lists at their end; with both names truthy the pair's list gains the scenario tokens then the feature tokens and no other list changes; otherwise nothing changes |
| CucumberRunner.Step | source/adapter/cucumber_runner.js:68-99 | one line extends the map, flushing exactly at a header; a feature header makes its name current and clears the scenario, a scenario header makes its name current under the same feature, other lines keep both names; a directive's tokens go after one of the two buffers |
| CucumberRunner.RunExtends | source/adapter/cucumber_runner.js:56-99 | the whole line loop, and the final flush, never remove a key or shorten a list |
| CucumberRunner.Start | source/adapter/cucumber_runner.js:42-54 | the extractor starts with no current names and empty buffers, on the map passed in or on an empty map when none is |
| CucumberRunner.LinesOf | source/adapter/cucumber_runner.js:41 | the trimmed contents cut at every line feed: at least one line, none holding a line feed, and joining them back gives the trimmed contents |
| CucumberRunner.ParseSettings | source/adapter/cucumber_runner.js:40-104 | a map passed in is extended, never replaced |
| CucumberRunner.NoFeatureNoEntry | source/adapter/cucumber_runner.js:57 | without a feature header nothing is added, whatever scenarios or directives appear |
| CucumberRunner.NewEntryFromHeaders | source/adapter/cucumber_runner.js:57-89 | a new list is created only for non-empty names, and only where the scenario header `s` was read while `f` was the current feature (a feature header `f` earlier with no other feature header in between, or `f` already current); a scenario header before the first feature header creates none |
| CucumberRunner.EmptyScenarioNameKeepsFeatureScope | source/adapter/cucumber_runner.js:86-94 | after `Scenario:` with an empty name, directives still go to the feature buffer (the name is falsy) and reach the feature's next scenario |
| CucumberRunner.StrayScenarioDirectivesReachFirstFeature | source/adapter/cucumber_runner.js:86-94 | directives after a scenario header that precedes every feature header go to the feature buffer and reach the first feature's first scenario |
| CucumberRunner.NamedScenarioKeepsScenarioScope | source/adapter/cucumber_runner.js:86-96 | under a named scenario the same directives go to that scenario only; the next scenario's list is created empty |
| CucumberRunner.FeaturePaths | source/adapter/cucumber_runner.js:24-32 | the feature paths are exactly those keys that end in `.feature` |
| CucumberRunner.FeaturePathsAppend | source/adapter/cucumber_runner.js:26-30 | the filter keeps the keys' iteration order: the paths of two consecutive runs of keys are the first run's paths followed by the second's |
| CucumberRunner.FeaturePathsOne | source/adapter/cucumber_runner.js:27-29 | a single key is kept, exactly once, when it ends in `.feature`, and dropped otherwise; with FeaturePathsAppend this fixes both the order and the multiplicity of the result |
| CucumberRunner.ParseAllExtends | source/adapter/cucumber_runner.js:37 | threading the map through successive files keeps everything the earlier files added |
| CucumberRunner.CucumberRunner.constructor | source/adapter/cucumber_runner.js:10-12 | a new runner keeps Karma's file keys and starts with no features and an empty settings map (the source's empty array, see above) |
| CucumberRunner.CucumberRunner.GetFeatureFilePaths | source/adapter/cucumber_runner.js:24-32 | the loop returns the keys ending in `.feature`, in iteration order |
| CucumberRunner.CucumberRunner.LoadFeature | source/adapter/cucumber_runner.js:34-38 | appends `[path, contents]` to the features and replaces the settings with the parse of the contents into them |
| CucumberRunner.CucumberRunner.Initialize | source/adapter/cucumber_runner.js:14-22 | with no feature paths, fails with the "No .feature files" message and changes nothing; otherwise appends every feature file in order and threads the settings through their parses |
| SettingsScoping.ScenarioEntries | source/adapter/cucumber_runner.js:64 | each scenario of a feature gets its own tokens followed by the feature's tokens |
| SettingsScoping.FeatureScopeDirectives | source/adapter/cucumber_runner.js:93-94 | directives read while no scenario or no feature is current go to the feature buffer, in order |
| SettingsScoping.ScenarioScopeDirectives | source/adapter/cucumber_runner.js:95-96 | directives read while both are current go to the scenario buffer, in order |
| SettingsScoping.ScenariosRun | source/adapter/cucumber_runner.js:56-90 | the scenarios of one feature add one entry each, with the scenario's tokens first, then the feature's; the feature buffer stays and the scenario buffer is reset |
| SettingsScoping.FeaturesRun | source/adapter/cucumber_runner.js:70-82 | a sequence of features adds their entries in order; only the first feature carries the tokens from before any feature |
| SettingsScoping.RunDocument | source/adapter/cucumber_runner.js:52-101 | the extractor over a document's lines adds exactly the document's entries to the given map, or to an empty map when none is given |
| SettingsScoping.ParseDocument | source/adapter/cucumber_runner.js:40-104 | a file whose meaningful lines render a document parses to the given map plus the document's entries |
| SettingsScoping.FeatureEntriesInclude | source/adapter/cucumber_runner.js:64 | every scenario of the document has an entry with its scoped tokens |
| SettingsScoping.FeatureEntriesFrom | source/adapter/cucumber_runner.js:57 | every entry belongs to some scenario of some feature |
| SettingsScoping.EntryOfScenario | source/adapter/cucumber_runner.js:64 | the same as FeatureEntriesInclude, for a whole document |
| SettingsScoping.ScenarioOfEntry | source/adapter/cucumber_runner.js:57 | the same as FeatureEntriesFrom, for a whole document |
| SettingsScoping.DirectivesReachTheirScenarios | source/adapter/cucumber_runner.js:64-96 | every token in a scenario's scope is in that scenario's list |
| SettingsScoping.TokensComeFromTheirScope | source/adapter/cucumber_runner.js:64-96 | every token in a list was in the map passed in, or in the scope of a scenario with those names |
| SettingsScoping.ScenarioDirectivesStayLocal | source/adapter/cucumber_runner.js:86-96 | a token written only under one scenario reaches no other scenario, so sibling scenarios never receive it |
| SettingsScoping.EntriesOnlyForScenarios | source/adapter/cucumber_runner.js:56-66 | a pair has a list iff it had one before or the document has a scenario of that name under a feature of that name |
| SettingsScoping.FeatureKeysOnlyWithScenarios | source/adapter/cucumber_runner.js:57-60 | a feature key exists iff it existed before or a feature of that name has at least one scenario; a feature without scenarios creates nothing |
| SettingsScoping.ExactScopedTokens | source/adapter/cucumber_runner.js:64 | when the names are distinct, a scenario's list is its old list followed by exactly its scoped tokens |
| SettingsScoping.PreambleReachesFirstFeature | source/adapter/cucumber_runner.js:64-94 | tokens before any feature header reach every scenario of the first feature |
| SettingsScoping.FeatureDirectivesReachEveryScenario | source/adapter/cucumber_runner.js:64-94 | tokens between a feature header and its first scenario reach every scenario of that feature |
| SettingsScoping.SingleScenarioLinesOf | source/adapter/cucumber_runner.js:41 | a three-line file splits back into its three lines |
| SettingsScoping.SingleScenarioClassified | source/adapter/cucumber_runner.js:70-98 | its lines classify as a directive, a feature header and a scenario header |
| SettingsScoping.SingleScenarioFile | source/adapter/cucumber_runner.js:40-104 | `#karma-cucumberjs t`, `Feature: F`, `Scenario: S` parses to `{F: {S: [t]}}` |
| KarmaListener.Initial | source/adapter/cucumber_runner/karma_listener.js:3-13 | a new listener has no current entities, a successful and unskipped scenario, an empty log, a zero counter, no event map, and the given settings |
| KarmaListener.ShouldAcceptPending | source/adapter/cucumber_runner/karma_listener.js:81-93 | true iff settings, feature and scenario are present, the settings hold a list for their names, and that list contains `allowPending` |
| KarmaListener.FailureEntry | source/adapter/cucumber_runner/karma_listener.js:104-112 | the logged line is the step's name and a line break, followed by the stack when there is one, else by the error's text |
| KarmaListener.TimeElapsed | source/adapter/cucumber_runner/karma_listener.js:117-126 | 0 for a skipped step; otherwise a throw without a current step, `NaN` for a step without `_time`, and the clock minus `_time` otherwise |
| KarmaListener.StepSuccessful | source/adapter/cucumber_runner/karma_listener.js:71-79 | a step never succeeds once the scenario has failed; otherwise a passed step succeeds, and a step that did not pass succeeds exactly when it is pending and pending is accepted |
| KarmaListener.Failed | source/adapter/cucumber_runner/karma_listener.js:100-103 | a failed outcome never counts as a successful step, whatever the flag and the pending setting; a skipped outcome is never failed |
| KarmaListener.BeforeFeatureSpec | source/adapter/cucumber_runner/karma_listener.js:34-36 | returns normally, and only the current feature changes, to the payload's |
| KarmaListener.BeforeScenarioSpec | source/adapter/cucumber_runner/karma_listener.js:38-41 | only the current scenario changes; it returns normally exactly when the payload is present, and then the scenario is the payload's, stamped with the clock |
| KarmaListener.BeforeStepSpec | source/adapter/cucumber_runner/karma_listener.js:43-45 | returns normally, and only the current step changes, to the payload's |
| KarmaListener.CheckStepFailureSpec | source/adapter/cucumber_runner/karma_listener.js:99-115 | only the log changes; it throws exactly when the outcome failed and the step or the failure payload is missing; the log gains the failure line exactly when the outcome failed and it returns normally |
| KarmaListener.StepResultSpec | source/adapter/cucumber_runner/karma_listener.js:47-69 | only the counter, the log and the outputs change; the counter grows by one and its new value is reported; then at most one result follows, and one does exactly when the handler returns normally |
| KarmaListener.Dispatch | source/adapter/cucumber_runner/karma_listener.js:27-29 | an unlisted name runs nothing and throws; no handler changes the flags, the settings or the event map |
| KarmaListener.HearSpec | source/adapter/cucumber_runner/karma_listener.js:14-32 | the event map is the built one (the four-entry table on first use), the last output is the callback, and the flags and settings are unchanged |
| KarmaListener.KarmaListener.constructor | source/adapter/cucumber_runner/karma_listener.js:2-135 | the new object's state is the initial state with the given settings |
| KarmaListener.KarmaListener.Hear | source/adapter/cucumber_runner/karma_listener.js:14-32 | builds the event map on first use, runs the handler the event's name selects with its throw swallowed, then calls the callback |
| KarmaListener.KarmaListener.BeforeFeature | source/adapter/cucumber_runner/karma_listener.js:34-36 | sets the current feature from the event's payload |
| KarmaListener.KarmaListener.BeforeScenario | source/adapter/cucumber_runner/karma_listener.js:38-41 | sets the current scenario and stamps it with the clock; throws, after the assignment, when the payload is missing |
| KarmaListener.KarmaListener.BeforeStep | source/adapter/cucumber_runner/karma_listener.js:43-45 | sets the current step from the event's payload |
| KarmaListener.KarmaListener.StepResult | source/adapter/cucumber_runner/karma_listener.js:47-69 | counts the step and reports the count, classifies the outcome, logs a failure and reports the result, throwing where it reads a missing entity |
| KarmaListener.KarmaListener.CheckStepFailure | source/adapter/cucumber_runner/karma_listener.js:99-115 | for a failed outcome, appends the failure line; throws without a current step or failure payload; otherwise changes nothing |
| ListenerProperties.HearBuildsMap | source/adapter/cucumber_runner/karma_listener.js:15-22 | after any event the event map is the four-entry table |
| ListenerProperties.DispatchOutputs | source/adapter/cucumber_runner/karma_listener.js:27-29 | handlers only append reports, and never a callback |
| ListenerProperties.DispatchFrame | source/adapter/cucumber_runner/karma_listener.js:7-45 | no handler changes the flags, the settings or the map; the handlers other than `stepResult` leave the counter, the log and the outputs alone and at most replace the step with the event's |
| ListenerProperties.HearCallsBackOnce | source/adapter/cucumber_runner/karma_listener.js:14-32 | `hear` calls its callback exactly once, after everything its handler reported |
| ListenerProperties.HearAllCallsBack | source/adapter/cucumber_runner/karma_listener.js:14-32 | over any event stream, the callback runs once per event, whatever its name, and earlier outputs are never changed |
| ListenerProperties.UnknownEventChangesNothing | source/adapter/cucumber_runner/karma_listener.js:24-31 | an event name outside the four changes nothing except building the map and calling the callback |
| ListenerProperties.HearBeforeFeature | source/adapter/cucumber_runner/karma_listener.js:34-36 | `BeforeFeature` replaces only the current feature |
| ListenerProperties.HearBeforeScenario | source/adapter/cucumber_runner/karma_listener.js:38-41 | `BeforeScenario` replaces only the current scenario, stamped with the clock |
| ListenerProperties.HearBeforeStep | source/adapter/cucumber_runner/karma_listener.js:43-45 | `BeforeStep` replaces only the current step |
| ListenerProperties.StepResultBeforeScenario | source/adapter/cucumber_runner/karma_listener.js:27-57 | a step result before any scenario still counts the step and reports the count, then throws, so no result is reported and the callback still runs |
| ListenerProperties.StepResultReported | source/adapter/cucumber_runner/karma_listener.js:47-97 | a step result is counted. A result is reported iff every entity it reads is present; the record names the scenario, the suite is the feature's name, the log is the whole log, and it carries the decided success, the outcome's skipped flag and the duration |
| ListenerProperties.StepResultLog | source/adapter/cucumber_runner/karma_listener.js:99-115 | the log gains exactly the step's failure line iff the outcome is none of the four (and the step and payload are there); otherwise it is unchanged |
| ListenerProperties.HearCountedOn | source/adapter/cucumber_runner/karma_listener.js:48-49 | one event adds one to the counter, and reports the new count, exactly when it is a step result |
| ListenerProperties.HearAllCounts | source/adapter/cucumber_runner/karma_listener.js:48-49 | over a stream, the counter grows by the number of step results, and the reported totals run on from it one by one |
| ListenerProperties.TotalsFromStart | source/adapter/cucumber_runner/karma_listener.js:10-49 | from a new listener, after n step results the counter is n and the reported totals are 1, 2, …, n in order |
| ListenerProperties.FlagsNeverChange | source/adapter/cucumber_runner/karma_listener.js:7-8 | `scenarioSuccess`, `scenarioSkipped` and the settings are never reassigned by any event |
| ListenerProperties.LogNeverShrinks | source/adapter/cucumber_runner/karma_listener.js:113 | the log only grows at its end |
| ListenerProperties.ResultTimes | source/adapter/cucumber_runner/karma_listener.js:40-126 | while the engine's steps carry no `_time`, every reported result took 0 ms when skipped and `NaN` otherwise |
| ListenerProperties.StepResultTimes | source/adapter/cucumber_runner/karma_listener.js:117-126 | `stepResult` leaves the current step alone and reports 0 ms for a skipped step and `NaN` for one without `_time` |
| ListenerProperties.ClassificationTable | source/adapter/cucumber_runner/karma_listener.js:71-121 | inside a scenario: a passed step succeeds; a pending step succeeds iff pending is accepted; a skipped step fails, is marked skipped and takes 0 ms; a failed step fails and logs one line headed by its name |
| ListenerProperties.ReportedRow | source/adapter/cucumber_runner/karma_listener.js:52-68 | inside a scenario, the reported record's success, skipped flag, duration and log are those the outcome and state decide |
| ListenerProperties.PendingRunOutputs | source/adapter/cucumber_runner/karma_listener.js:14-69 | a feature, a scenario, a step and its pending result produce three callbacks, `info` with total 1, one result whose success is the settings' verdict, and a callback |
| ListenerProperties.AllowPendingDirective | source/adapter/cucumber_runner/karma_listener.js:81-93 | with the settings parsed from a file whose first line is `#karma-cucumberjs allowPending`, the pending step of its one scenario is reported as a success; without settings it is reported as a failure |

## Left out

- Cucumber orchestration is not modelled. This covers `startCucumberRun`, the listeners
  attached to the engine and `setTimeout`, the step definitions
  (`stepDefinitionsFunction`, `runStepDefinition`, `addStepDefinitions`), the `window`
  globals, the `define` module wiring and `onCucumberFinished`. They only call into code
  outside this core.
- Console output is not modelled: `prettyFormatterLogger` and `log` only write to the
  console.
- `fileLoader.loadFile` does I/O. It is the parameter `loadFile`, a function from path
  to contents.
- The wall clock is the parameter `now`.
- `KarmaListener.KarmaListener.Hear`: an unlisted event name runs no handler. In
  JavaScript, names of `Object.prototype` members (such as `toString`) do reach those
  members. None of them changes the listener, so the state and outputs are the same.
- Names that collide with properties every JavaScript object or array already has (such
  as `constructor`, `__proto__` or `length`) are not modelled. Feature and scenario names
  are plain map keys here.
- Aliasing is not modelled. The log passed to `karma.result` is a snapshot, whereas the
  source passes the one mutable array that later failures keep extending. Stamping a
  scenario also mutates the event's own object; the model stamps a copy.
- The settings map is updated in place by the source. The model returns the updated map
  as a value.
- Strings are sequences of Unicode characters rather than UTF-16 code units. No
  operation of the core depends on the difference.
- `checkStepSkipped` is the outcome's `skipped` field, read inline in
  `KarmaListener.KarmaListener.StepResult`.
- `checkStepSuccess` is the predicate `KarmaListener.StepSuccessful`, called from
  `KarmaListener.StepResultSpec` with the listener's flag and `shouldAcceptPending`.
- `toString` of the listener is not modelled; it returns a constant string.
- Helpers on `getName`, `getPayloadItem` and the four outcome predicates are not modelled
  separately. Each is a field of the event or entity datatypes.
