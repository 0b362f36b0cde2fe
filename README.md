# Run-state reconciler of the Cypress server reporter

This project models the part of `packages/server/lib/reporter.js` that keeps
the run state on behalf of Mocha:

- the registry of runnables (`this.runnables`), filled from the declared tree of suites and tests by `setRunnables`;
- the `events` table and `emit`/`parseArgs`, which fold each event payload into the stored records;
- the retry snapshots in `prevAttempts`;
- moving a hook failure onto the test that ran the hook;
- the title walk `getTitlePath`;
- the snapshot `results()` returns: normalised tests and hooks, plus the recomputed stats.

JavaScript objects are finite maps from property name to `Value`
(`Records.Obj`). A missing key stands for both a missing property and
`undefined`. `_.extend` is map union, with the incoming properties winning.
`_.omit` and `_.pick` are map restrictions. A property read through a key
value (`runnables[props.id]`) goes through `Records.KeyString`, which spells
the value the way JavaScript turns it into a property key, for the integer
numbers the model has.

The registry is the value `Tree.Registry`. It holds:

- the records, by key;
- the keys in insertion order, which is the order `_.chain(this.runnables)` visits them;
- the Mocha `parent` back-references, kept as the parent's key;
- the keys whose record is an object literal (the hook records `safelyMergeRunnable` makes) rather than a Mocha `Suite` or `Test`, which decides whether `parseArgs` strips `id` and `hookId` from it.

`Reporting.Reporter` is the class that owns this state and updates it in place. Each of its methods is
proved equal to a pure step on the registry value (`Dispatch.EmitStep`,
`Titles.RestoreChain`, `Projection.Project`, …). The lemmas state what the
source promises about those steps:

- every event keeps the registry valid;
- a retry appends exactly one snapshot;
- a hook failure fails the owning test and names the hook;
- the title walk is idempotent;
- two `results()` calls in a row agree;
- a root suite is not counted.

Two points where the code's behaviour differs from what one might expect:

- **The default root is counted.** `setRunnables()` without a root builds the
  default root `{ title: '' }`. `createSuite` gives it `root: false`, so
  `results()` counts it in `stats.suites`. A root declared with `root: true`
  is never counted (`Projection.RootSuiteNotCounted`).
- **Attempts grow per retry event, not per counter step.** The attempt history
  grows by one for each `test:before:run` whose `_currentRetry` exceeds the
  stored one. It equals the difference of the counters only when they rise by
  one each time (`Merges.HistoryGrowsByOnePerRetry`).

## Model

| member | source | states |
|---|---|---|
| Records.OrNull | packages/server/lib/reporter.js:217-221 | the result is `null` exactly when the property is missing, `undefined` or `null`; otherwise it is the property itself |
| Records.Extend | packages/server/lib/reporter.js:159 | `_.extend(target, src)`: the keys are the union, every property of `src` wins, every other property of `target` is kept |
| Records.Omit | packages/server/lib/reporter.js:355 | `_.omit`: exactly the named keys are gone, every other property is kept |
| Records.Rename | packages/server/lib/reporter.js:119-123 | an own property `from` moves to `to`; an object without it is unchanged; no other key changes |
| Records.ToMochaProps | packages/server/lib/reporter.js:112-125 | `currentRetry`/`retries` are gone; `_currentRetry`/`_retries` take their values when they were present; every other property is unchanged |
| Records.ToMochaPropsIdempotent | packages/server/lib/reporter.js:112-125 | renaming an already renamed payload changes nothing |
| Records.ToAttemptProps | packages/server/lib/reporter.js:127-136 | the snapshot holds exactly the six attempt keys the record has, with the record's values |
| Records.ToAttemptPropsIdempotent | packages/server/lib/reporter.js:127-136 | a snapshot of a snapshot is the snapshot |
| Tree.InsertWrites | packages/server/lib/reporter.js:326-328 | `this.runnables[id] = runnable` overwrites one record; a new key goes at the end of the insertion order and an existing key keeps its place; the parent link becomes the given parent, or is dropped when there is none (reporter.js:69-71, 105-107); the key is no longer an object literal |
| Tree.SuiteRecordFields | packages/server/lib/reporter.js:66-77 | `createSuite`: the suite has no `type`, `root` is `!!obj.root`, and `id`, `title` and `file` are the declared ones |
| Tree.TestRecordFields | packages/server/lib/reporter.js:79-110 | `createRunnable`: the test has `type: 'test'` and the declared title; its state is the declared one or `'skipped'` when that is `null`/`undefined`; its body is the declared one or `''`; `timedOut`, `async`, `sync`, `duration`, `_retries`, `_currentRetry` and `id` are the declared ones |
| Tree.InsertOrder | packages/server/lib/reporter.js:328 | a registry write keeps the insertion order duplicate-free and equal to the key set |
| Tree.EntriesKeepShape | packages/server/lib/reporter.js:303-331 | materialising a subtree keeps the order faithful and resolves every parent link except the subtree's own |
| Tree.MaterialiseValid | packages/server/lib/reporter.js:252-260 | the registry `setRunnables` builds is valid: its order is faithful and every parent is registered |
| Tree.MaterialisedTestsHaveState | packages/server/lib/reporter.js:96 | after `setRunnables` every registered test has a state that is not `null`/`undefined` |
| Tree.ApplyAllKeys | packages/server/lib/reporter.js:326-328 | the keys after a series of writes are the keys before plus exactly the keys written (`Tree.ApplyAll` is the series of writes) |
| Tree.LastWriteWins | packages/server/lib/reporter.js:326-328 | the last write under a key decides its record and its parent link |
| Tree.EntriesAreDeclared | packages/server/lib/reporter.js:303-331 | the writes `_createRunnable` makes (`Tree.Entries`) are exactly the runnables declared in the tree, each with its kind and its parent's key |
| Tree.KidEntriesAreDeclared | packages/server/lib/reporter.js:310-316 | the writes for the first i tests or suites of a suite (`Tree.KidEntries`) are the runnables declared under those children |
| Tree.MaterialiseIsApplyAll | packages/server/lib/reporter.js:303-331 | the recursion of `_createRunnable` (children first, then the node) performs exactly the writes `Tree.Entries` lists, in that order |
| Tree.RegisteredKeys | packages/server/lib/reporter.js:252-260 | after `setRunnables` the registry holds exactly the keys of the declared runnables |
| Tree.RegisteredAsDeclared | packages/server/lib/reporter.js:303-331 | with distinct declared ids, every declared suite and test is registered under its id as its own suite or test record, linked to its parent's key, the root to none |
| Titles.StripSkip | packages/server/lib/reporter.js:51-57 | removing the browser-skip marker never lengthens a title |
| Titles.StripSkipFirstOccurrence | packages/server/lib/reporter.js:56 | `replace` with a string pattern cuts out the first occurrence of the marker and keeps everything before and after it |
| Titles.StripSkipNoMarker | packages/server/lib/reporter.js:51-57 | a title without the marker is left unchanged |
| Titles.StripSkipTrailing | packages/server/lib/reporter.js:56 | a marker whose first occurrence ends the title is cut off |
| Titles.StripSkipSuffix | packages/server/lib/reporter.js:51-57 | the marker appended by a browser skip is removed, giving back the original title, for every title in which the marker does not already start earlier |
| Titles.Segment | packages/server/lib/reporter.js:51-57 | a runnable adds `[StripSkip(s)]` exactly when its effective title (`originalTitle` if truthy, else `title`) is a non-empty string `s`, and nothing otherwise |
| Titles.Restore | packages/server/lib/reporter.js:47-49 | a truthy `originalTitle` replaces `title`; no other property changes, and the runnable contributes the same segment |
| Titles.RestoreAt | packages/server/lib/reporter.js:47-49 | restoring one runnable's title keeps the keys, the order and the parent links |
| Titles.WalkOn | packages/server/lib/reporter.js:44-64 | one step of the walk that goes on: `Titles.PathAcc` and `Titles.RestoreChain` from a runnable with a parent are those from the parent, with the runnable's title restored and its segment collected |
| Titles.WalkEnd | packages/server/lib/reporter.js:44-64 | the last step, at a runnable without a parent: the path is its segment before the titles collected, and only its title is restored |
| Titles.PathAccPrepends | packages/server/lib/reporter.js:56-64 | `titles.unshift`: titles already collected stay at the end, so the path runs outermost ancestor first |
| Titles.ParentThenSelf | packages/server/lib/reporter.js:44-64 | a runnable's path is its parent's path followed by its own segment |
| Titles.PathAccSameSegments | packages/server/lib/reporter.js:44-64 | the path depends only on the segments and the parent links |
| Titles.RestoreChainSameSegments | packages/server/lib/reporter.js:47-49 | restoring titles along the walk changes no segment, key or parent link |
| Titles.UntitledRootHasEmptyPath | packages/server/lib/reporter.js:51-64 | a parentless runnable whose title is falsy (missing, `null`, `''`, `false` or `0`) and that has no truthy `originalTitle`, such as the default root, has the empty path |
| Titles.TitlePathIdempotent | packages/server/lib/reporter.js:44-64 | walking again after the titles were restored gives the same path |
| Titles.RestoreChainRestores | packages/server/lib/reporter.js:47-49 | the walk changes only `title` properties |
| Titles.TitlesRestoredTransitive | packages/server/lib/reporter.js:47-49 | a series of walks still changes only `title` properties |
| Merges.MergeRecord | packages/server/lib/reporter.js:138-161 | on a retry, the old history plus one snapshot of the superseded attempt becomes `prevAttempts`, and `err`/`failedFromHookId`/`hookName` are cleared unless the payload brings them; otherwise the history is kept; incoming properties win and all others are kept |
| Merges.SnapshotWithoutHistory | packages/server/lib/reporter.js:149-150 | the snapshot taken after `delete runnable.prevAttempts` is the snapshot of the record itself: the history is not an attempt key |
| Merges.FirstAttemptNoSnapshot | packages/server/lib/reporter.js:145 | a stored record without `_currentRetry` (NaN in the comparison) never takes a snapshot |
| Merges.HistoryGrowsByOnePerRetry | packages/server/lib/reporter.js:138-161 | after n retries with increasing counters (`Merges.RetryFold`) the history has grown by exactly n, still starts with the old history, and the stored counter is the last one |
| Merges.HookRecord | packages/server/lib/reporter.js:163-173 | the created hook record holds exactly `hookId`, `type`, `title`, `body` and `hookName` from the payload |
| Merges.FailRecord | packages/server/lib/reporter.js:179-189 | the test is `failed` with the runnable's `err`; `failedFromHookId` is the hook id only when the failing runnable is a hook; nothing else changes |
| Merges.FailCopy | packages/server/lib/reporter.js:191-196 | the emitted copy is the failed test under the failing runnable's title |
| Projection.NormError | packages/server/lib/reporter.js:389-394 | a falsy `err` gives `orNull(err)`; a truthy one gives an object with at most `name`, `message`, `stack` and `codeFrame`, where `name`, `message` and `codeFrame` are copied and `stack` is the stripped stack when that is a truthy string, else copied |
| Projection.NormAttemptOf | packages/server/lib/reporter.js:396-404 | an attempt shows `orNull` of its state, timings, failing hook, start and duration, its normalised error, and `videoTimestamp: null` |
| Projection.LiveAttemptIsItsSnapshot | packages/server/lib/reporter.js:396-404 | the live attempt is shown exactly as its snapshot will be after a retry |
| Projection.DisplayError | packages/server/lib/reporter.js:387 | `displayError` is `orNull` of the error's stack when the error is truthy, and `orNull(err)` otherwise, so `null` when `err` is missing |
| Projection.NormTestOf | packages/server/lib/reporter.js:381-409 | attempts are the old history followed by the live record, one more than the history; the id, state, body and display error come from the record; the title is its title path |
| Projection.NormHookOf | packages/server/lib/reporter.js:372-379 | a hook shows its `hookId`, `hookName` and `body` without `orNull`, and its title path |
| Projection.Select | packages/server/lib/reporter.js:428-443 | every key the lodash filter keeps is registered and of the requested kind, and it keeps at most as many keys as it is given |
| Projection.SelectMembers | packages/server/lib/reporter.js:428-443 | a key is kept exactly when it is one of the keys and its record is of the requested kind |
| Projection.SelectAppend | packages/server/lib/reporter.js:428-443 | filtering keeps order: filtering `a + b` filters `a`, then `b` |
| Projection.SelectOne | packages/server/lib/reporter.js:428-443 | a single key is kept exactly when its record is of the requested kind |
| Projection.CountState | packages/server/lib/reporter.js:456-459 | `_.filter(tests, {state}).length` is the number of indices whose test is in that state, never more than the number of tests |
| Projection.StateCountsBounded | packages/server/lib/reporter.js:456-459 | passes, pending, skipped and failures together never exceed the number of tests |
| Projection.WallClockDuration | packages/server/lib/reporter.js:446-452 | the duration is 0 unless both bounds were set; otherwise start plus duration is the end |
| Projection.Tests | packages/server/lib/reporter.js:427-432 | one normalised test per selected test record, in order, each the `normalizeTest` of that record |
| Projection.Hooks | packages/server/lib/reporter.js:434-438 | one normalised hook per selected hook record, in order, each the `normalizeHook` of that record |
| Projection.StatsOf | packages/server/lib/reporter.js:446-459 | `suites` counts the `root: false` records; `tests` counts the tests; `passes`, `pending`, `skipped` and `failures` count the tests in each state, together at most `tests`; the wall-clock bounds are kept and the duration is recomputed |
| Projection.Project | packages/server/lib/reporter.js:427-475 | `results()`: the tests and hooks are the normalised selections, and the stats are recounted from those tests with one test counted per normalised test |
| Projection.RootSuiteNotCounted | packages/server/lib/reporter.js:440-443 | a registered `root: true` suite is not among the counted suites, so fewer suites are counted than there are records |
| Projection.SetVideoTimestamp | packages/server/lib/reporter.js:477-490 | each attempt with a truthy start gets `start - videoStart` as its video offset; attempts with a falsy start are unchanged; nothing else changes |
| Projection.SelectIgnoresTitles | packages/server/lib/reporter.js:428-443 | restored titles do not change which records the filters select |
| Projection.NormTestIgnoresTitles | packages/server/lib/reporter.js:381-409 | normalising a test after earlier walks gives what it gives before them |
| Projection.NormHookIgnoresTitles | packages/server/lib/reporter.js:372-379 | normalising a hook after earlier walks gives what it gives before them |
| Projection.ProjectIgnoresTitles | packages/server/lib/reporter.js:427-475 | the snapshot does not see the titles restored by earlier walks |
| Projection.ResultsIdempotent | packages/server/lib/reporter.js:427-475 | calling `results()` twice with no event in between gives the same snapshot, stats included |
| Projection.RestoreAll | packages/server/lib/reporter.js:427-438 | walking from each of several keys only restores titles and keeps every parent registered |
| Dispatch.SetDateStep | packages/server/lib/reporter.js:199-215 | a truthy `start` or `end` sets that wall-clock bound; every other stat is unchanged |
| Dispatch.CleanArgs | packages/server/lib/reporter.js:353-355 | a plain first argument loses `id` and `hookId`; any other first argument, and every later one, is passed as it is; an empty list becomes `[undefined]` |
| Dispatch.UnknownEventIgnored | packages/server/lib/reporter.js:338-339 | an event missing from the table changes nothing and is not emitted |
| Dispatch.UnregisteredIdPaths | packages/server/lib/reporter.js:138-197 | for an id that names no record, `fail` and `test:before:run` throw and change nothing, and every other `mergeRunnable` event leaves registry and stats alone and hands on the renamed payload as a plain object, stripped of `id` and `hookId` |
| Dispatch.EmittedArgsArePublic | packages/server/lib/reporter.js:346-360 | whatever the event, a plain first argument reaches the runner without `id` or `hookId` |
| Dispatch.RetryIsLogOnly | packages/server/lib/reporter.js:231 | `retry` hands its payload on without `id`/`hookId` and leaves the registry and stats as they were |
| Dispatch.MergeTouchesOneRecord | packages/server/lib/reporter.js:138-161 | a merge changes only the record under the payload's id, and keeps the order, keys and parent links |
| Dispatch.HookCreatedOnce | packages/server/lib/reporter.js:163-177 | the hook record is created on the first event for that hook id and never replaced by a later one; every other record and every parent link stays as it was, a new hook id is appended to the insertion order and marked as an object literal, and an existing one leaves the registry unchanged |
| Dispatch.FailureMarksOwningTest | packages/server/lib/reporter.js:179-197 | a failure marks the owning test failed with the error and the failing hook; the emitted copy carries the runnable's title; no other record changes |
| Dispatch.MergeRunnableKeepsValid | packages/server/lib/reporter.js:138-161 | `Dispatch.MergeRunnableStep` keeps the registry valid |
| Dispatch.MergeIntoPlainRecord | packages/server/lib/reporter.js:163-177 | merging into a hook record hands it on as a plain object, not as a Mocha instance |
| Dispatch.HookPassesOnOwningTest | packages/server/lib/reporter.js:163-177 | when the payload's `id` differs from its `hookId`, the value handed on is the record under `id` (the owning test) extended by the payload, keeping every test property the payload lacks, or a plain copy of the payload when `id` is unregistered; it is never the hook record |
| Dispatch.SafelyMergeKeepsValid | packages/server/lib/reporter.js:163-177 | `Dispatch.SafelyMergeStep` keeps the registry valid |
| Dispatch.MergeErrKeepsValid | packages/server/lib/reporter.js:179-197 | `Dispatch.MergeErrStep` keeps the registry valid |
| Dispatch.HookRecordReachesRunnerStripped | packages/server/lib/reporter.js:163-177 | after `hook` registers a hook record, a `mergeRunnable` event for that id hands the runner a plain object without `id` and `hookId` |
| Dispatch.EmitKeepsValid | packages/server/lib/reporter.js:223-238 | every event (`Dispatch.EmitStep`) keeps the registry valid |
| Reporting.Reporter.constructor | packages/server/lib/reporter.js:252-260 | a new reporter with its runnables set holds the materialised registry, a valid one, and zeroed stats |
| Reporting.Reporter.SetRunnables | packages/server/lib/reporter.js:252-260 | resets stats and the registry, then materialises the declared tree (or the default root); the result is valid and every test has a state |
| Reporting.Reporter.CreateRunnable | packages/server/lib/reporter.js:303-331 | for a suite, writes its tests, then its suites, then the suite itself; for a test, writes the test |
| Reporting.Reporter.CreateChildren | packages/server/lib/reporter.js:310-316 | the first i children of a suite are written in order |
| Reporting.Reporter.Register | packages/server/lib/reporter.js:326-328 | stores one record with its parent link |
| Reporting.Reporter.MergeRunnable | packages/server/lib/reporter.js:138-161 | the registry and the handler result are those of `Dispatch.MergeRunnableStep`; the registry stays valid |
| Reporting.Reporter.SafelyMergeRunnable | packages/server/lib/reporter.js:163-177 | the registry and the handler result are those of `Dispatch.SafelyMergeStep`; the registry stays valid |
| Reporting.Reporter.MergeErr | packages/server/lib/reporter.js:179-197 | the registry and the handler result are those of `Dispatch.MergeErrStep`; the registry stays valid |
| Reporting.Reporter.SetDate | packages/server/lib/reporter.js:199-215 | the stats become `Dispatch.SetDateStep` of the old stats; the registry is untouched; the handler returns `[]` |
| Reporting.Reporter.ParseArgs | packages/server/lib/reporter.js:346-360 | runs the event's handler and returns its cleaned arguments or its error, as `Dispatch.EmitStep` says |
| Reporting.Reporter.Emit | packages/server/lib/reporter.js:333-344 | the new registry, the new stats and what reaches the runner are `Dispatch.EmitStep` of the old state |
| Reporting.Reporter.GetTitlePath | packages/server/lib/reporter.js:44-64 | returns the title path and leaves the registry with the walk's titles restored, and nothing else changed |
| Reporting.Reporter.CollectTitles | packages/server/lib/reporter.js:44-64 | the recursion of `getTitlePath` returns `Titles.PathAcc` and leaves `Titles.RestoreChain` of the old registry, with keys, order and parent links unchanged |
| Reporting.Reporter.RestoreTitle | packages/server/lib/reporter.js:47-57 | restores one runnable's original title and returns the segment it adds |
| Reporting.Reporter.NormalizeTest | packages/server/lib/reporter.js:381-409 | returns `Projection.NormTestOf` of the state before the call; only titles change |
| Reporting.Reporter.NormalizeHook | packages/server/lib/reporter.js:372-379 | returns `Projection.NormHookOf` of the state before the call; only titles change |
| Reporting.Reporter.NormalizeTests | packages/server/lib/reporter.js:427-432 | normalises the test records in order, each as it was before any walk |
| Reporting.Reporter.NormalizeHooks | packages/server/lib/reporter.js:434-438 | normalises the hook records in order, each as it was before any walk |
| Reporting.Reporter.Results | packages/server/lib/reporter.js:427-475 | returns `Projection.Project` of the state before the call; the stored stats become the returned ones; only titles change |
| Scenarios.StartEndDuration | packages/server/lib/reporter.js:446-452 | `start` at 1000 and `end` at 1500 with no tests give a wall-clock duration of 500 and no tests |
| Scenarios.FirstAttemptFails | packages/server/lib/reporter.js:179-189 | a first attempt that fails leaves counter 0, no history, state `failed` and the error |
| Scenarios.RetryAppends | packages/server/lib/reporter.js:144-157 | a counter of 1 over 0 appends one snapshot to the history |
| Scenarios.PassKeepsHistory | packages/server/lib/reporter.js:138-161 | a `pass` event keeps the history and sets the state |
| Scenarios.FailThenPassRecord | packages/server/lib/reporter.js:138-197 | failing and then passing on the retry gives two attempts: `failed` with the `AssertionError`, then `passed` |
| Scenarios.HookFailureBlamesTest | packages/server/lib/reporter.js:179-197 | a failing `before each` hook `h1` for test `t2` leaves `t2` failed, its last attempt naming `h1`, and the error's stack as its display error |
| Scenarios.DriverRetryThroughEmit | packages/server/lib/reporter.js:112-159 | a driver payload `{id, currentRetry: 1, retries: 2}` for a test stored at attempt 0, sent through `emit('test:before:run')`, appends one snapshot to the history and stores `_currentRetry: 1` and `_retries: 2`; the stats stay |

## Left out

- Mocha itself is not modelled: `new Mocha`, `Mocha.Runner`, the stats collector, `loadReporter` with `overrideRequire`, and the spec reporter's indentation and pass-line overrides. Mocha's runner is only the receiver of `Dispatch.Emission`.
- The console output of `_logRetry` and `debug` is not modelled. `reporterName`, `reporterOptions` and `projectRoot` are not modelled, and neither is the `reporterStats` and `reporter` fields of the `results()` value.
- `end()` is not modelled: it waits on the reporter's `done` callback (a promise) and then calls `results()`, which is modelled.
- `emit` returns the value of `runner.emit`; the model returns what is handed to the runner instead.
- `stackUtils.stackWithoutMessage` is code outside this model. Applied to a string stack, it is the `strip` parameter of `Projection.NormError`.
- Projection.NormError: a truthy `err.stack` that is not a string (a number, say) is copied unchanged, whereas the source hands every truthy stack to `stackWithoutMessage` (reporter.js:392); what that helper does with a non-string is not modelled.
- Timestamps are whole milliseconds. `new Date(s)` is modelled only for numeric `s`. `Dispatch.DateOf`: a truthy non-numeric `start`/`end` (a date string) leaves the bound unset here, whereas the source would store a parsed date.
- Projection.SetVideoTimestamp: an attempt's start is read as a number. `normalizeTest` wraps a truthy start in `new Date(...)` (reporter.js:401), so a date string gives a numeric offset in the source and only an unparseable one gives `NaN`; here a truthy start that is not a number is left unchanged.
- Titles.Segment: a truthy title that is not a string contributes no segment, whereas the source would throw at `.replace`.
- Titles.TitlePath: the walk follows at most as many parent links as there are records. A declared tree cannot make a longer chain; a cycle, on which the source would not terminate, is cut off.
- A `parent` property inside an event payload is not modelled. Parent links come only from the declared tree. Mocha-internal and inherited properties of the stored instances (`titlePath`, `fullTitle`, …), which `_.extend` would also copy, are not modelled either.
- Parent links are kept by key, so a declared tree that repeats an id makes the later record the parent of both subtrees.
- Merges.Retried: `_currentRetry` compared as a string or an object is not modelled; such values never count as a retry here.
- Merges.PrevAttempts: a stored `prevAttempts` that is not a list reads as `[]`, whereas `concat` on it could behave otherwise; and an item of `prevAttempts` that is not an object (say `null`) is normalised as an empty attempt, whereas the source throws at `attempt.err` (reporter.js:389).
- The insertion order of JavaScript objects puts integer-like keys first in ascending order. The model keeps plain insertion order for every key.
- Using the reporter before `setRunnables`, and calling `emit` with no argument object, are not modelled.
- With the `spec` reporter, `emit('retry', test)` first calls `_logRetry` (reporter.js:334-336), which reads `this.runnables[test.id].titlePath()` (reporter.js:362-364). For an unregistered id, or an id naming a hook record (a plain object without `titlePath`), that throws and nothing reaches the runner. The reporter name and the console are not modelled, so `Dispatch.RetryIsLogOnly` describes the other reporters only.
- Projection.SetVideoTimestamp and Reporting.Reporter.Results: the snapshot is a value here. In the source, `setVideoTimestamp` writes `videoTimestamp` into the attempt objects it is given (reporter.js:485), which are the ones held by the tests `results()` returned, and `results()` hands out `this.stats` itself (reporter.js:464), so a later `start`/`end` event or a second `results()` changes a snapshot already returned. That sharing is not captured.
- Dispatch.UnknownEventIgnored: the event table and the registry are finite maps of own names only. The source looks names up on `{}` objects, so names inherited from `Object.prototype` (`__proto__`, `constructor`, `toString`, …) are found there: such an event name is not ignored (it is emitted, calls `Object`, or throws in `parseArgs`), and a hook id such as `toString` creates no hook record. The model treats those names as absent in `events[event]` and `runnables[id]`.
- Records.Value: every JavaScript number is an unbounded integer (`VNum`). Fractions, `NaN`, `Infinity`, `-0` and the exponent spelling of large numbers as property keys (`"1e+21"`) are not modelled; this covers timestamps, the `_currentRetry`/`_retries` comparison, numeric ids and `wallClockDuration`.
