/**
 * The result snapshot: `normalizeTest`, `normalizeHook`, the statistics of
 * `results`, and `setVideoTimestamp` (reporter.js:372-409, 427-490).
 */
module Projection {
  import opened Wrappers
  import opened Records
  import opened Tree
  import opened Titles
  import opened Merges

  /** An attempt as it appears in `tests[].attempts` (reporter.js:396-404). */
  datatype NormAttempt = NormAttempt(
    state: Value, error: Value, timings: Value, failedFromHookId: Value,
    wallClockStartedAt: Value, wallClockDuration: Value, videoTimestamp: Value)

  /** A test of the snapshot (reporter.js:382-406). */
  datatype NormTest = NormTest(
    testId: Value, title: seq<string>, state: Value, body: Value,
    displayError: Value, attempts: seq<NormAttempt>)

  /** A hook of the snapshot (reporter.js:373-378); its properties are copied without `orNull`. */
  datatype NormHook = NormHook(hookId: Option<Value>, hookName: Option<Value>, title: seq<string>, body: Option<Value>)

  /** `this.stats`; the wall-clock fields hold millisecond timestamps once `setDate` has seen them. */
  datatype Stats = Stats(
    suites: nat, tests: nat, passes: nat, pending: nat, skipped: nat, failures: nat,
    wallClockStartedAt: Option<int>, wallClockEndedAt: Option<int>, wallClockDuration: Option<int>)

  /** The stats `setRunnables` starts a run with (reporter.js:258). */
  const FreshStats := Stats(0, 0, 0, 0, 0, 0, None, None, None)

  /** The properties of an error value (`err.name` and so on); a non-object has none. */
  function Fields(v: Value): Obj {
    if v.VObj? then v.fields else map[]
  }

  /**
   * `attempt.err && {name, message, stack, codeFrame}` passed through `orNull`
   * (reporter.js:389-398); `strip` stands for `stackUtils.stackWithoutMessage`.
   */
  function NormError(attempt: Obj, strip: string -> string): (r: Value)
    ensures !Truthy(attempt, "err") ==> r == OrNull(attempt, "err")
    ensures Truthy(attempt, "err") ==> r.VObj? && r.fields.Keys <= {"name", "message", "stack", "codeFrame"}
    ensures Truthy(attempt, "err") ==> forall k :: k in {"name", "message", "codeFrame"} ==> Get(r.fields, k) == Get(Fields(attempt["err"]), k)
    ensures Truthy(attempt, "err") && Truthy(Fields(attempt["err"]), "stack") && Fields(attempt["err"])["stack"].VStr? ==>
      Get(r.fields, "stack") == Some(VStr(strip(Fields(attempt["err"])["stack"].s)))
    ensures Truthy(attempt, "err") && !(Truthy(Fields(attempt["err"]), "stack") && Fields(attempt["err"])["stack"].VStr?) ==>
      Get(r.fields, "stack") == Get(Fields(attempt["err"]), "stack")
  {
    if Truthy(attempt, "err") then
      var e := Fields(attempt["err"]);
      var stack := if Truthy(e, "stack") && e["stack"].VStr? then Some(VStr(strip(e["stack"].s))) else Get(e, "stack");
      VObj(Assign(Assign(Assign(Assign(map[], "name", Get(e, "name")), "message", Get(e, "message")),
        "stack", stack), "codeFrame", Get(e, "codeFrame")))
    else OrNull(attempt, "err")
  }

  /** One attempt of the snapshot; `videoTimestamp` is always `null` here. */
  function NormAttemptOf(attempt: Obj, strip: string -> string): (r: NormAttempt)
    ensures r.videoTimestamp == VNull
    ensures r.state == OrNull(attempt, "state") && r.timings == OrNull(attempt, "timings")
    ensures r.failedFromHookId == OrNull(attempt, "failedFromHookId")
    ensures r.wallClockStartedAt == OrNull(attempt, "wallClockStartedAt")
    ensures r.wallClockDuration == OrNull(attempt, "wallClockDuration")
    ensures r.error == NormError(attempt, strip)
  {
    NormAttempt(
      OrNull(attempt, "state"), NormError(attempt, strip), OrNull(attempt, "timings"),
      OrNull(attempt, "failedFromHookId"), OrNull(attempt, "wallClockStartedAt"),
      OrNull(attempt, "wallClockDuration"), VNull)
  }

  /** The live attempt reads only the snapshot keys: it is shown exactly as its snapshot will be after a retry. */
  lemma LiveAttemptIsItsSnapshot(test: Obj, strip: string -> string)
    ensures NormAttemptOf(ToAttemptProps(test), strip) == NormAttemptOf(test, strip)
  {
    var s := ToAttemptProps(test);
    assert Truthy(s, "err") == Truthy(test, "err");
  }

  /** `orNull(test.err && test.err.stack)`. */
  function DisplayError(test: Obj): (r: Value)
    ensures Truthy(test, "err") ==> r == OrNull(Fields(test["err"]), "stack")
    ensures !Truthy(test, "err") ==> r == OrNull(test, "err")
    ensures "err" !in test ==> r == VNull
  {
    if Truthy(test, "err") then OrNull(Fields(test["err"]), "stack") else OrNull(test, "err")
  }

  /** `normalizeTest` on the record registered under `key`, reading the registry as it is. */
  function NormTestOf(reg: Registry, key: string, strip: string -> string): (r: NormTest)
    requires key in reg.runnables && ParentsWithin(reg, {})
    ensures var test := reg.runnables[key];
      |r.attempts| == |PrevAttempts(test)| + 1 &&
      (forall i :: 0 <= i < |PrevAttempts(test)| ==> r.attempts[i] == NormAttemptOf(Fields(PrevAttempts(test)[i]), strip)) &&
      r.attempts[|r.attempts| - 1] == NormAttemptOf(test, strip) &&
      r.testId == OrNull(test, "id") && r.state == OrNull(test, "state") && r.body == OrNull(test, "body") &&
      r.displayError == DisplayError(test) && r.title == TitlePath(reg, key)
  {
    var test := reg.runnables[key];
    var prev := PrevAttempts(test);
    NormTest(
      OrNull(test, "id"), TitlePath(reg, key), OrNull(test, "state"), OrNull(test, "body"),
      DisplayError(test),
      seq(|prev| + 1, i requires 0 <= i < |prev| + 1 =>
        if i < |prev| then NormAttemptOf(Fields(prev[i]), strip) else NormAttemptOf(test, strip)))
  }

  /** `normalizeHook` on the record registered under `key`. */
  function NormHookOf(reg: Registry, key: string): (r: NormHook)
    requires key in reg.runnables && ParentsWithin(reg, {})
    ensures r.hookId == Get(reg.runnables[key], "hookId") && r.hookName == Get(reg.runnables[key], "hookName")
    ensures r.body == Get(reg.runnables[key], "body") && r.title == TitlePath(reg, key)
  {
    var hook := reg.runnables[key];
    NormHook(Get(hook, "hookId"), Get(hook, "hookName"), TitlePath(reg, key), Get(hook, "body"))
  }

  /** The three lodash filters of `results`: `{type: 'test'}`, `{type: 'hook'}` and `{root: false}`. */
  datatype Kind = TestKind | HookKind | SuiteKind

  predicate IsKind(o: Obj, kind: Kind) {
    match kind
    case TestKind => Get(o, "type") == Some(VStr("test"))
    case HookKind => Get(o, "type") == Some(VStr("hook"))
    case SuiteKind => Get(o, "root") == Some(VBool(false))
  }

  /** The keys among `keys`, in order, whose records match `kind`. */
  function Select(keys: seq<string>, m: map<string, Obj>, kind: Kind): (r: seq<string>)
    ensures |r| <= |keys|
    ensures forall i :: 0 <= i < |r| ==> r[i] in m && IsKind(m[r[i]], kind)
    decreases |keys|
  {
    if keys == [] then []
    else
      var k := keys[|keys| - 1];
      assert keys == keys[..|keys| - 1] + [k];
      Select(keys[..|keys| - 1], m, kind) + (if k in m && IsKind(m[k], kind) then [k] else [])
  }

  /**
   * Filtering keeps order: selecting from `a + b` selects from `a`, then from `b`.
   * With the single-key case this pins `Select` down to lodash's `_.filter`.
   */
  lemma {:induction false} SelectAppend(a: seq<string>, b: seq<string>, m: map<string, Obj>, kind: Kind)
    ensures Select(a + b, m, kind) == Select(a, m, kind) + Select(b, m, kind)
    decreases |b|
  {
    if b == [] {
      assert a + b == a;
    } else {
      assert (a + b)[..|a + b| - 1] == a + b[..|b| - 1];
      SelectAppend(a, b[..|b| - 1], m, kind);
    }
  }

  /** A key is selected exactly when it is among `keys` and its record matches. */
  lemma {:induction false} SelectMembers(keys: seq<string>, m: map<string, Obj>, kind: Kind)
    ensures forall k :: k in Select(keys, m, kind) <==> k in keys && k in m && IsKind(m[k], kind)
    decreases |keys|
  {
    if keys != [] {
      var front := keys[..|keys| - 1];
      SelectMembers(front, m, kind);
      assert keys == front + [keys[|keys| - 1]];
    }
  }

  /** A single key is kept exactly when its record matches. */
  lemma SelectOne(k: string, m: map<string, Obj>, kind: Kind)
    ensures Select([k], m, kind) == if k in m && IsKind(m[k], kind) then [k] else []
  {
    assert [k][..0] == [];
  }

  /** The indices of the tests in state `s`. */
  ghost function InState(tests: seq<NormTest>, s: string): set<int> {
    set i | 0 <= i < |tests| && tests[i].state == VStr(s)
  }

  /** Splitting off the last test splits the index set the same way. */
  lemma InStateLast(tests: seq<NormTest>, s: string)
    requires tests != []
    ensures var n := |tests| - 1;
      InState(tests, s) == InState(tests[..n], s) + (if tests[n].state == VStr(s) then {n} else {})
      && n !in InState(tests[..n], s)
  {
    var n := |tests| - 1;
    var p := tests[..n];
    forall i | i in InState(tests, s) && i < n ensures i in InState(p, s) {
      assert p[i] == tests[i];
    }
    forall i | i in InState(p, s) ensures i in InState(tests, s) {
      assert p[i] == tests[i];
    }
  }

  /** `_.filter(tests, {state: s}).length`: the number of tests in state `s`. */
  function CountState(tests: seq<NormTest>, s: string): (r: nat)
    ensures r <= |tests|
    ensures r == |InState(tests, s)|
    decreases |tests|
  {
    if tests == [] then 0
    else
      InStateLast(tests, s);
      CountState(tests[..|tests| - 1], s) + (if tests[|tests| - 1].state == VStr(s) then 1 else 0)
  }

  /** The four state counts never exceed the number of tests: a test is in at most one state. */
  lemma {:induction false} StateCountsBounded(tests: seq<NormTest>)
    ensures CountState(tests, "passed") + CountState(tests, "pending") + CountState(tests, "skipped") + CountState(tests, "failed") <= |tests|
    decreases |tests|
  {
    if tests != [] {
      StateCountsBounded(tests[..|tests| - 1]);
    }
  }

  /** `wallClockEndedAt - wallClockStartedAt` when both were set, else 0 (reporter.js:445-452). */
  function WallClockDuration(stats: Stats): (r: int)
    ensures stats.wallClockStartedAt.None? || stats.wallClockEndedAt.None? ==> r == 0
    ensures stats.wallClockStartedAt.Some? && stats.wallClockEndedAt.Some? ==>
      stats.wallClockStartedAt.value + r == stats.wallClockEndedAt.value
  {
    if stats.wallClockStartedAt.Some? && stats.wallClockEndedAt.Some? then
      stats.wallClockEndedAt.value - stats.wallClockStartedAt.value
    else 0
  }

  /** The snapshot `results` returns, with the tests and hooks normalised from the registry as it is. */
  datatype RunResult = RunResult(stats: Stats, hooks: seq<NormHook>, tests: seq<NormTest>)

  function Tests(reg: Registry, strip: string -> string): (r: seq<NormTest>)
    requires ParentsWithin(reg, {})
    ensures |r| == |Select(reg.order, reg.runnables, TestKind)|
    ensures forall i :: 0 <= i < |r| ==> r[i] == NormTestOf(reg, Select(reg.order, reg.runnables, TestKind)[i], strip)
  {
    var ks := Select(reg.order, reg.runnables, TestKind);
    seq(|ks|, i requires 0 <= i < |ks| => NormTestOf(reg, ks[i], strip))
  }

  function Hooks(reg: Registry): (r: seq<NormHook>)
    requires ParentsWithin(reg, {})
    ensures |r| == |Select(reg.order, reg.runnables, HookKind)|
    ensures forall i :: 0 <= i < |r| ==> r[i] == NormHookOf(reg, Select(reg.order, reg.runnables, HookKind)[i])
  {
    var ks := Select(reg.order, reg.runnables, HookKind);
    seq(|ks|, i requires 0 <= i < |ks| => NormHookOf(reg, ks[i]))
  }

  /** The stats `results` writes over `stats`: counts recomputed, wall-clock times kept. */
  function StatsOf(reg: Registry, stats: Stats, tests: seq<NormTest>): (r: Stats)
    ensures r.suites == |Select(reg.order, reg.runnables, SuiteKind)| && r.tests == |tests|
    ensures r.passes == CountState(tests, "passed") && r.pending == CountState(tests, "pending")
    ensures r.skipped == CountState(tests, "skipped") && r.failures == CountState(tests, "failed")
    ensures r.passes + r.pending + r.skipped + r.failures <= r.tests
    ensures r.wallClockStartedAt == stats.wallClockStartedAt && r.wallClockEndedAt == stats.wallClockEndedAt
    ensures r.wallClockDuration == Some(WallClockDuration(stats))
  {
    StateCountsBounded(tests);
    Stats(
      |Select(reg.order, reg.runnables, SuiteKind)|, |tests|,
      CountState(tests, "passed"), CountState(tests, "pending"),
      CountState(tests, "skipped"), CountState(tests, "failed"),
      stats.wallClockStartedAt, stats.wallClockEndedAt, Some(WallClockDuration(stats)))
  }

  /** `results`: the tests and hooks in registration order, and the stats recounted from those tests. */
  function Project(reg: Registry, stats: Stats, strip: string -> string): (r: RunResult)
    requires ParentsWithin(reg, {})
    ensures r.tests == Tests(reg, strip) && r.hooks == Hooks(reg) && r.stats == StatsOf(reg, stats, r.tests)
    ensures r.stats.tests == |r.tests| == |Select(reg.order, reg.runnables, TestKind)|
  {
    var tests := Tests(reg, strip);
    RunResult(StatsOf(reg, stats, tests), Hooks(reg), tests)
  }

  /** Counting only `root: false` records leaves out a root suite (`root: true`). */
  lemma {:induction false} RootSuiteNotCounted(keys: seq<string>, m: map<string, Obj>, root: string)
    requires root in keys && root in m && Get(m[root], "root") == Some(VBool(true))
    ensures root !in Select(keys, m, SuiteKind)
    ensures |Select(keys, m, SuiteKind)| < |keys|
    decreases |keys|
  {
    var k := keys[|keys| - 1];
    if k != root {
      assert root in keys[..|keys| - 1] by {
        var i :| 0 <= i < |keys| && keys[i] == root;
        assert i < |keys| - 1;
        assert keys[..|keys| - 1][i] == root;
      }
      RootSuiteNotCounted(keys[..|keys| - 1], m, root);
    }
  }

  /** `setVideoTimestamp` (reporter.js:477-490): offsets into the video for attempts with a start time. */
  function SetVideoTimestamp(videoStart: int, tests: seq<NormAttempt>): (r: seq<NormAttempt>)
    ensures |r| == |tests|
    ensures forall i :: 0 <= i < |r| ==> r[i].(videoTimestamp := tests[i].videoTimestamp) == tests[i]
    ensures forall i :: 0 <= i < |r| && tests[i].wallClockStartedAt.VNum? && tests[i].wallClockStartedAt.n != 0 ==>
      r[i].videoTimestamp == VNum(tests[i].wallClockStartedAt.n - videoStart)
    ensures forall i :: 0 <= i < |r| && !TruthyValue(tests[i].wallClockStartedAt) ==> r[i] == tests[i]
  {
    seq(|tests|, i requires 0 <= i < |tests| =>
      var t := tests[i];
      if t.wallClockStartedAt.VNum? && t.wallClockStartedAt.n != 0 then
        t.(videoTimestamp := VNum(t.wallClockStartedAt.n - videoStart))
      else t)
  }
  lemma SameOutsideTitle(a: Obj, b: Obj, j: string)
    requires a - {"title"} == b - {"title"} && j != "title"
    ensures Get(a, j) == Get(b, j)
  {
    assert j in a <==> j in a - {"title"};
    assert j in b <==> j in b - {"title"};
    if j in a {
      assert (a - {"title"})[j] == a[j];
      assert (b - {"title"})[j] == b[j];
    }
  }

  lemma {:induction false} SelectIgnoresTitles(keys: seq<string>, a: Registry, b: Registry, kind: Kind)
    requires TitlesRestored(a, b)
    ensures Select(keys, a.runnables, kind) == Select(keys, b.runnables, kind)
    decreases |keys|
  {
    if keys != [] {
      var k := keys[|keys| - 1];
      SelectIgnoresTitles(keys[..|keys| - 1], a, b, kind);
      if k in a.runnables {
        SameOutsideTitle(a.runnables[k], b.runnables[k], "type");
        SameOutsideTitle(a.runnables[k], b.runnables[k], "root");
      }
    }
  }

  /** Two records that differ at most in `title` normalise alike apart from the title path. */
  lemma SameRecordView(x: Obj, y: Obj, strip: string -> string)
    requires x - {"title"} == y - {"title"}
    ensures OrNull(x, "id") == OrNull(y, "id") && OrNull(x, "state") == OrNull(y, "state")
    ensures OrNull(x, "body") == OrNull(y, "body") && DisplayError(x) == DisplayError(y)
    ensures PrevAttempts(x) == PrevAttempts(y) && NormAttemptOf(x, strip) == NormAttemptOf(y, strip)
  {
    SameOutsideTitle(x, y, "id");
    SameOutsideTitle(x, y, "body");
    SameOutsideTitle(x, y, "err");
    SameOutsideTitle(x, y, "prevAttempts");
    SameOutsideTitle(x, y, "state");
    SameOutsideTitle(x, y, "timings");
    SameOutsideTitle(x, y, "failedFromHookId");
    SameOutsideTitle(x, y, "wallClockStartedAt");
    SameOutsideTitle(x, y, "wallClockDuration");
  }

  /** Restored titles change nothing `normalizeTest` reports. */
  lemma NormTestIgnoresTitles(a: Registry, b: Registry, key: string, strip: string -> string)
    requires key in a.runnables && ParentsWithin(a, {}) && TitlesRestored(a, b)
    ensures key in b.runnables && ParentsWithin(b, {})
    ensures NormTestOf(b, key, strip) == NormTestOf(a, key, strip)
  {
    PathAccSameSegments(a, b, key, |a.order|, []);
    var x := a.runnables[key];
    var y := b.runnables[key];
    SameRecordView(x, y, strip);
    var ra := NormTestOf(a, key, strip);
    var rb := NormTestOf(b, key, strip);
    assert ra.attempts == rb.attempts;
  }

  lemma NormHookIgnoresTitles(a: Registry, b: Registry, key: string)
    requires key in a.runnables && ParentsWithin(a, {}) && TitlesRestored(a, b)
    ensures key in b.runnables && ParentsWithin(b, {})
    ensures NormHookOf(b, key) == NormHookOf(a, key)
  {
    PathAccSameSegments(a, b, key, |a.order|, []);
    var x := a.runnables[key];
    var y := b.runnables[key];
    SameOutsideTitle(x, y, "hookId");
    SameOutsideTitle(x, y, "hookName");
    SameOutsideTitle(x, y, "body");
  }

  /** The snapshot does not see the titles `getTitlePath` restores. */
  lemma {:induction false} ProjectIgnoresTitles(a: Registry, b: Registry, stats: Stats, strip: string -> string)
    requires ParentsWithin(a, {}) && TitlesRestored(a, b)
    ensures ParentsWithin(b, {})
    ensures Project(b, stats, strip) == Project(a, stats, strip)
  {
    SelectIgnoresTitles(a.order, a, b, TestKind);
    SelectIgnoresTitles(a.order, a, b, HookKind);
    SelectIgnoresTitles(a.order, a, b, SuiteKind);
    var tk := Select(a.order, a.runnables, TestKind);
    forall i | 0 <= i < |tk| ensures NormTestOf(b, tk[i], strip) == NormTestOf(a, tk[i], strip) {
      NormTestIgnoresTitles(a, b, tk[i], strip);
    }
    var hk := Select(a.order, a.runnables, HookKind);
    forall i | 0 <= i < |hk| ensures NormHookOf(b, hk[i]) == NormHookOf(a, hk[i]) {
      NormHookIgnoresTitles(a, b, hk[i]);
    }
    assert Tests(b, strip) == Tests(a, strip);
    assert Hooks(b) == Hooks(a);
  }

  /**
   * `results` twice with no event in between gives the same snapshot: the
   * second call starts from the stats and the restored titles the first one left.
   */
  lemma ResultsIdempotent(a: Registry, b: Registry, stats: Stats, strip: string -> string)
    requires ParentsWithin(a, {}) && TitlesRestored(a, b)
    ensures ParentsWithin(b, {})
    ensures Project(b, Project(a, stats, strip).stats, strip) == Project(a, stats, strip)
  {
    var first := Project(a, stats, strip);
    var st := first.stats;
    ProjectIgnoresTitles(a, b, st, strip);
    assert Project(b, st, strip) == Project(a, st, strip);
    // the recount only reads the wall-clock bounds of the stats it is given, which the first call kept
    assert st.wallClockStartedAt == stats.wallClockStartedAt && st.wallClockEndedAt == stats.wallClockEndedAt;
    assert WallClockDuration(st) == WallClockDuration(stats);
    assert StatsOf(a, st, first.tests) == StatsOf(a, stats, first.tests);
  }
  /** The registry after `getTitlePath` ran from each of `keys` in turn. */
  ghost function RestoreAll(reg: Registry, keys: seq<string>): (r: Registry)
    requires ParentsWithin(reg, {}) && forall i :: 0 <= i < |keys| ==> keys[i] in reg.runnables
    ensures TitlesRestored(reg, r) && ParentsWithin(r, {})
    decreases |keys|
  {
    if keys == [] then reg
    else
      var front := RestoreAll(reg, keys[..|keys| - 1]);
      var k := keys[|keys| - 1];
      RestoreChainRestores(front, k, |front.order|);
      TitlesRestoredTransitive(reg, front, RestoreChain(front, k, |front.order|));
      RestoreChain(front, k, |front.order|)
  }
}
