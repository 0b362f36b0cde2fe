/**
 * The `Reporter` class (reporter.js:240-490): it owns the registry and the
 * stats and updates them in place as events arrive.
 */
module Reporting {
  import opened Wrappers
  import opened Records
  import opened Tree
  import opened Titles
  import opened Merges
  import opened Projection
  import opened Dispatch

  /** The root `setRunnables` uses when none is given: `{ title: '' }` (reporter.js:253-255). */
  function RootOf(root: Option<Node>): Node {
    match root
    case Some(n) => n
    case None => Node(map["title" := VStr("")], [], [])
  }

  class Reporter {
    var runnables: map<string, Obj>
    var order: seq<string>
    var parentOf: map<string, string>
    var plain: set<string>
    var stats: Stats

    function State(): Registry
      reads this
    {
      Registry(runnables, order, parentOf, plain)
    }

    ghost predicate Valid()
      reads this
    {
      Tree.Valid(State())
    }

    /** `new Reporter()` followed by `setRunnables(root)`. */
    constructor (root: Option<Node>)
      ensures Valid() && stats == FreshStats
      ensures State() == ApplyAll(EmptyRegistry, Entries(RootOf(root), true, None))
    {
      runnables, order, parentOf, plain, stats := map[], [], map[], {}, FreshStats;
      new;
      SetRunnables(root);
    }

    /** The per-run reset of `setRunnables` and the materialisation of the declared tree (reporter.js:252-260). */
    method SetRunnables(root: Option<Node>)
      modifies this
      ensures Valid() && stats == FreshStats
      ensures State() == ApplyAll(EmptyRegistry, Entries(RootOf(root), true, None))
      ensures TestsHaveState(State())
    {
      var rootRunnable := RootOf(root);
      stats := FreshStats;
      runnables, order, parentOf, plain := map[], [], map[], {};
      CreateRunnable(rootRunnable, true, None);
      MaterialiseIsApplyAll(EmptyRegistry, rootRunnable, true, None);
      MaterialiseValid(rootRunnable);
      MaterialisedTestsHaveState(rootRunnable);
    }

    /** `_createRunnable(n, asSuite ? 'suite' : 'test', parent)` (reporter.js:303-331). */
    method CreateRunnable(n: Node, asSuite: bool, parent: Option<string>)
      modifies this
      ensures State() == Materialise(old(State()), n, asSuite, parent)
      ensures stats == old(stats)
      decreases n, 1
    {
      var key := NodeKey(n);
      var runnable: Obj;
      if asSuite {
        runnable := SuiteRecord(n.props);
        CreateChildren(n, false, |n.tests|);
        CreateChildren(n, true, |n.suites|);
      } else {
        runnable := TestRecord(n.props);
      }
      Register(key, runnable, parent);
    }

    /** `suite.tests = _.map(...)` or `suite.suites = _.map(...)`: the first `i` children of suite `n`, in order. */
    method CreateChildren(n: Node, suites: bool, i: nat)
      requires i <= if suites then |n.suites| else |n.tests|
      modifies this
      ensures State() == MaterialiseKids(old(State()), n, suites, i)
      ensures stats == old(stats)
      decreases n, 0, i
    {
      if i > 0 {
        var j := i - 1;
        CreateChildren(n, suites, j);
        CreateRunnable(Kid(n, suites, i), suites, Some(NodeKey(n)));
      }
    }

    /** `this.runnables[key] = runnable`, with the new object's `parent` link. */
    method Register(key: string, runnable: Obj, parent: Option<string>)
      modifies this
      ensures State() == Insert(old(State()), key, runnable, parent)
      ensures stats == old(stats)
    {
      runnables := runnables[key := runnable];
      if key !in order {
        order := order + [key];
      }
      match parent {
        case Some(p) => parentOf := parentOf[key := p];
        case None => parentOf := parentOf - {key};
      }
      plain := plain - {key};
    }

    /** The handler `mergeRunnable(eventName)` applied to a payload (reporter.js:138-161). */
    method MergeRunnable(eventName: string, testProps: Obj) returns (h: Handled)
      requires Valid()
      modifies this
      ensures (State(), h) == MergeRunnableStep(old(State()), eventName, testProps)
      ensures Valid() && stats == old(stats)
    {
      var props := ToMochaProps(testProps);
      var key := KeyString(Get(props, "id"));
      if key !in runnables {
        // reading `_currentRetry` of `undefined` throws; `_.extend(undefined, props)` does not
        if eventName == BeforeRun {
          return TypeError;
        }
        return Args([Plain(props)]);
      }
      var runnable := runnables[key];
      ghost var stored := runnable;
      if eventName == BeforeRun && GreaterAt(props, runnable, "_currentRetry") {
        var prevAttempts := PrevAttempts(runnable);
        runnable := runnable - {"prevAttempts"};
        var prevAttempt := ToAttemptProps(runnable);
        SnapshotWithoutHistory(stored);
        runnable := runnable - {"failedFromHookId", "err", "hookName"};
        ClearedInTwoSteps(stored);
        props := props["prevAttempts" := VList(prevAttempts + [VObj(prevAttempt)])];
      }
      runnable := Extend(runnable, props);
      assert runnable == MergeRecord(eventName, stored, ToMochaProps(testProps));
      ReplaceKeepsValid(State(), key, runnable);
      runnables := runnables[key := runnable];
      h := Args([if key in plain then Plain(runnable) else Instance(runnable)]);
    }

    /** The handler `safelyMergeRunnable` for `hook` and `hook end` (reporter.js:163-177). */
    method SafelyMergeRunnable(hookProps: Obj) returns (h: Handled)
      requires Valid()
      modifies this
      ensures (State(), h) == SafelyMergeStep(old(State()), hookProps)
      ensures Valid() && stats == old(stats)
    {
      SafelyMergeKeepsValid(State(), hookProps);
      var hookId := KeyString(Get(hookProps, "hookId"));
      if hookId !in runnables {
        Register(hookId, HookRecord(hookProps), None);
        plain := plain + {hookId};
      }
      var id := KeyString(Get(hookProps, "id"));
      var base := if id in runnables then runnables[id] else map[];
      h := Args([Plain(Extend(base, hookProps))]);
    }

    /** The handler `mergeErr` for `fail` (reporter.js:179-197). */
    method MergeErr(runnable: Obj) returns (h: Handled)
      requires Valid()
      modifies this
      ensures (State(), h) == MergeErrStep(old(State()), runnable)
      ensures Valid() && stats == old(stats)
    {
      var key := KeyString(Get(runnable, "id"));
      if key !in runnables {
        // `test.err = ...` on `undefined` throws
        return TypeError;
      }
      var test := runnables[key];
      test := Assign(test, "err", Get(runnable, "err"));
      test := test["state" := VStr("failed")];
      if Get(runnable, "type") == Some(VStr("hook")) {
        test := Assign(test, "failedFromHookId", Get(runnable, "hookId"));
      }
      ReplaceKeepsValid(State(), key, test);
      runnables := runnables[key := test];
      var copy := Assign(test, "title", Get(runnable, "title"));
      h := Args([Plain(copy), ArgOf(Get(copy, "err"))]);
    }

    /** The handler `setDate` for `start` and `end` (reporter.js:199-215). */
    method SetDate(obj: Obj) returns (h: Handled)
      modifies this
      ensures stats == SetDateStep(old(stats), obj) && h == Args([])
      ensures State() == old(State())
    {
      if Truthy(obj, "start") && obj["start"].VNum? {
        stats := stats.(wallClockStartedAt := Some(obj["start"].n));
      }
      if Truthy(obj, "end") && obj["end"].VNum? {
        stats := stats.(wallClockEndedAt := Some(obj["end"].n));
      }
      h := Args([]);
    }

    /**
     * `parseArgs(event, arg)` (reporter.js:346-360): runs the event's handler
     * and cleans its first argument; the event name the source puts in front
     * of the list is left out of `h`.
     */
    method ParseArgs(event: string, arg: Obj) returns (h: Handled)
      requires Valid() && event in Events
      modifies this
      ensures var (r, s, e) := EmitStep(old(State()), old(stats), event, arg);
        State() == r && stats == s && !e.Ignored? &&
        h == if e.Threw? then TypeError else Args(e.args)
      ensures Valid()
    {
      var res: Handled;
      match Events[event] {
        case SetDate => res := SetDate(arg);
        case MergeRunnable(name) => res := MergeRunnable(name, arg);
        case SafelyMergeRunnable => res := SafelyMergeRunnable(arg);
        case PassThrough => res := Args([Plain(arg)]);
        case MergeErr => res := MergeErr(arg);
      }
      if res.TypeError? {
        return TypeError;
      }
      h := Args(CleanArgs(res.args));
    }

    /** `emit(event, arg)` (reporter.js:333-344): unknown events are ignored, the rest reach the runner. */
    method Emit(event: string, arg: Obj) returns (e: Emission)
      requires Valid()
      modifies this
      ensures (State(), stats, e) == EmitStep(old(State()), old(stats), event, arg)
      ensures Valid()
    {
      if event !in Events {
        return Ignored;
      }
      var h := ParseArgs(event, arg);
      if h.TypeError? {
        e := Threw;
      } else {
        e := Emitted(event, h.args);
      }
    }

    /**
     * `getTitlePath(runnable)` (reporter.js:44-64): walks up the parent links,
     * restoring each original title and collecting the stripped titles,
     * outermost first.
     */
    method GetTitlePath(key: string) returns (titles: seq<string>)
      requires Valid() && key in runnables
      modifies this
      ensures titles == TitlePath(old(State()), key)
      ensures State() == RestoreChain(old(State()), key, |old(order)|)
      ensures TitlesRestored(old(State()), State())
      ensures Valid() && stats == old(stats)
    {
      ghost var s0 := State();
      RestoreChainRestores(s0, key, |s0.order|);
      titles := CollectTitles(key, |order|, []);
      SameShapeValid(s0, State());
    }

    /** The recursion of `getTitlePath`: restore the title at `key`, put its segment in front of `titles`, go on at the parent. */
    method CollectTitles(key: string, fuel: nat, titles: seq<string>) returns (path: seq<string>)
      requires key in runnables && ParentsWithin(State(), {})
      modifies this
      ensures path == PathAcc(old(State()), key, fuel, titles)
      ensures State() == RestoreChain(old(State()), key, fuel)
      ensures order == old(order) && parentOf == old(parentOf) && runnables.Keys == old(runnables.Keys)
      ensures stats == old(stats)
      decreases fuel
    {
      ghost var pre := State();
      var segment := RestoreTitle(key);
      if fuel > 0 && key in parentOf {
        WalkOn(pre, key, fuel, titles);
        path := CollectTitles(parentOf[key], fuel - 1, segment + titles);
      } else {
        WalkEnd(pre, key, fuel, titles);
        path := segment + titles;
      }
    }

    /** One runnable of the walk: `title` takes `originalTitle` when that is truthy; the result is the title it contributes. */
    method RestoreTitle(key: string) returns (segment: seq<string>)
      requires key in runnables
      modifies this
      ensures State() == RestoreAt(old(State()), key)
      ensures stats == old(stats)
      ensures segment == Segment(old(runnables)[key])
    {
      var runnable := runnables[key];
      if Truthy(runnable, "originalTitle") {
        runnable := runnable["title" := runnable["originalTitle"]];
      }
      runnables := runnables[key := runnable];
      segment := [];
      match Get(runnable, "title") {
        case Some(VStr(t)) =>
          if t != "" {
            segment := [StripSkip(t)];
          }
        case _ =>
      }
    }

    /** `normalizeTest(test)` for the record under `key` (reporter.js:381-409). */
    method NormalizeTest(key: string, strip: string -> string) returns (t: NormTest)
      requires Valid() && key in runnables
      modifies this
      ensures t == NormTestOf(old(State()), key, strip)
      ensures State() == RestoreChain(old(State()), key, |old(order)|)
      ensures TitlesRestored(old(State()), State())
      ensures Valid() && stats == old(stats)
    {
      ghost var s0 := State();
      var title := GetTitlePath(key);
      var test := runnables[key];
      SameRecordView(s0.runnables[key], test, strip);
      var prev := PrevAttempts(test);
      var attempts := seq(|prev| + 1, i requires 0 <= i < |prev| + 1 =>
        if i < |prev| then NormAttemptOf(Fields(prev[i]), strip) else NormAttemptOf(test, strip));
      t := NormTest(OrNull(test, "id"), title, OrNull(test, "state"), OrNull(test, "body"), DisplayError(test), attempts);
    }

    /** `normalizeHook(hook)` for the record under `key` (reporter.js:372-379). */
    method NormalizeHook(key: string) returns (hook: NormHook)
      requires Valid() && key in runnables
      modifies this
      ensures hook == NormHookOf(old(State()), key)
      ensures State() == RestoreChain(old(State()), key, |old(order)|)
      ensures TitlesRestored(old(State()), State())
      ensures Valid() && stats == old(stats)
    {
      ghost var s0 := State();
      var title := GetTitlePath(key);
      var h := runnables[key];
      SameOutsideTitle(s0.runnables[key], h, "hookId");
      SameOutsideTitle(s0.runnables[key], h, "hookName");
      SameOutsideTitle(s0.runnables[key], h, "body");
      hook := NormHook(Get(h, "hookId"), Get(h, "hookName"), title, Get(h, "body"));
    }

    /** `results()` (reporter.js:427-475): the snapshot of the run, with the stats recomputed in place. */
    method Results(strip: string -> string) returns (r: RunResult)
      requires Valid()
      modifies this
      ensures r == Project(old(State()), old(stats), strip)
      ensures stats == r.stats
      ensures TitlesRestored(old(State()), State()) && Valid()
    {
      ghost var s0 := State();
      ghost var stats0 := stats;
      var testKeys := Select(order, runnables, TestKind);
      var tests := NormalizeTests(testKeys, strip);
      assert tests == Tests(s0, strip);
      ghost var s1 := State();

      SelectIgnoresTitles(order, s0, s1, HookKind);
      var hookKeys := Select(order, runnables, HookKind);
      var hooks := NormalizeHooks(hookKeys);
      NormHooksFromStart(s0, s1, hookKeys, hooks);
      assert hooks == Hooks(s0);
      TitlesRestoredTransitive(s0, s1, State());

      SelectIgnoresTitles(order, s0, State(), SuiteKind);
      var suites := Select(order, runnables, SuiteKind);
      ghost var want := StatsOf(s0, stats0, tests);
      assert |suites| == want.suites && want.wallClockDuration == Some(WallClockDuration(stats0));
      assert stats == stats0;
      // wallClockDuration defaults to 0 and is end minus start once both are set
      var st := stats.(wallClockDuration := Some(WallClockDuration(stats)));
      st := st.(suites := |suites|, tests := |tests|);
      st := st.(passes := CountState(tests, "passed"), pending := CountState(tests, "pending"));
      st := st.(skipped := CountState(tests, "skipped"), failures := CountState(tests, "failed"));
      assert st.passes == want.passes && st.pending == want.pending;
      assert st.skipped == want.skipped && st.failures == want.failures;
      assert st.suites == want.suites && st.tests == want.tests && st.wallClockDuration == want.wallClockDuration;
      assert st.wallClockStartedAt == want.wallClockStartedAt && st.wallClockEndedAt == want.wallClockEndedAt;
      assert st == want;
      stats := st;
      r := RunResult(stats, hooks, tests);
      assert r == Project(s0, stats0, strip);
    }

    /** `.map(this.normalizeTest)` over the records under `keys`, in order. */
    method NormalizeTests(keys: seq<string>, strip: string -> string) returns (tests: seq<NormTest>)
      requires Valid() && forall j :: 0 <= j < |keys| ==> keys[j] in runnables
      modifies this
      ensures |tests| == |keys| && forall j :: 0 <= j < |keys| ==> tests[j] == NormTestOf(old(State()), keys[j], strip)
      ensures TitlesRestored(old(State()), State()) && Valid() && stats == old(stats)
    {
      ghost var s0 := State();
      tests := [];
      var i := 0;
      while i < |keys|
        invariant 0 <= i <= |keys|
        invariant Valid() && TitlesRestored(s0, State()) && stats == old(stats)
        invariant |tests| == i && forall j :: 0 <= j < i ==> tests[j] == NormTestOf(s0, keys[j], strip)
      {
        ghost var before := State();
        NormTestIgnoresTitles(s0, before, keys[i], strip);
        var t := NormalizeTest(keys[i], strip);
        ghost var after := State();
        assert TitlesRestored(before, after) && t == NormTestOf(s0, keys[i], strip);
        TitlesRestoredTransitive(s0, before, after);
        ghost var doneTests := tests;
        tests := tests + [t];
        forall j | 0 <= j < i + 1 ensures tests[j] == NormTestOf(s0, keys[j], strip) {
          if j < i {
            assert tests[j] == doneTests[j];
          }
        }
        i := i + 1;
      }
    }

    /** `.map(this.normalizeHook)` over the records under `keys`, in order. */
    method NormalizeHooks(keys: seq<string>) returns (hooks: seq<NormHook>)
      requires Valid() && forall j :: 0 <= j < |keys| ==> keys[j] in runnables
      modifies this
      ensures |hooks| == |keys| && forall j :: 0 <= j < |keys| ==> hooks[j] == NormHookOf(old(State()), keys[j])
      ensures TitlesRestored(old(State()), State()) && Valid() && stats == old(stats)
    {
      ghost var s0 := State();
      hooks := [];
      var i := 0;
      while i < |keys|
        invariant 0 <= i <= |keys|
        invariant Valid() && TitlesRestored(s0, State()) && stats == old(stats)
        invariant |hooks| == i && forall j :: 0 <= j < i ==> hooks[j] == NormHookOf(s0, keys[j])
      {
        ghost var before := State();
        NormHookIgnoresTitles(s0, before, keys[i]);
        var hook := NormalizeHook(keys[i]);
        ghost var after := State();
        assert TitlesRestored(before, after) && hook == NormHookOf(s0, keys[i]);
        TitlesRestoredTransitive(s0, before, after);
        ghost var doneHooks := hooks;
        hooks := hooks + [hook];
        forall j | 0 <= j < i + 1 ensures hooks[j] == NormHookOf(s0, keys[j]) {
          if j < i {
            assert hooks[j] == doneHooks[j];
          }
        }
        i := i + 1;
      }
    }
  }

  /** Hooks normalised after the tests' walks read as if normalised from the start. */
  lemma NormHooksFromStart(s0: Registry, s1: Registry, keys: seq<string>, hooks: seq<NormHook>)
    requires ParentsWithin(s0, {}) && TitlesRestored(s0, s1)
    requires forall j :: 0 <= j < |keys| ==> keys[j] in s0.runnables
    requires |hooks| == |keys| && forall j :: 0 <= j < |keys| ==> hooks[j] == NormHookOf(s1, keys[j])
    ensures forall j :: 0 <= j < |keys| ==> hooks[j] == NormHookOf(s0, keys[j])
  {
    forall j | 0 <= j < |keys| ensures hooks[j] == NormHookOf(s0, keys[j]) {
      NormHookIgnoresTitles(s0, s1, keys[j]);
    }
  }
}
