/**
 * Whole runs through `emit` and `results`, stated on the registry and stats
 * values the `Reporter` methods are proved to produce.
 */
module Scenarios {
  import opened Wrappers
  import opened Records
  import opened Tree
  import opened Merges
  import opened Projection
  import opened Dispatch

  /** `start` at 1000 and `end` at 1500 with no test registered: the run lasted 500 ms and has no tests. */
  lemma StartEndDuration(reg: Registry, strip: string -> string)
    requires Valid(reg) && Select(reg.order, reg.runnables, TestKind) == []
    ensures var (r1, s1, _) := EmitStep(reg, FreshStats, "start", map["start" := VNum(1000)]);
      var (r2, s2, _) := EmitStep(r1, s1, "end", map["end" := VNum(1500)]);
      r2 == reg && Project(r2, s2, strip).stats.wallClockDuration == Some(500) &&
      Project(r2, s2, strip).stats.tests == 0
  {
    assert "start" in Events && Events["start"] == SetDate && "end" in Events && Events["end"] == SetDate;
    var (r1, s1, _) := EmitStep(reg, FreshStats, "start", map["start" := VNum(1000)]);
    assert r1 == reg && s1.wallClockStartedAt == Some(1000) && s1.wallClockEndedAt == None;
    var (r2, s2, _) := EmitStep(r1, s1, "end", map["end" := VNum(1500)]);
    assert r2 == reg && s2.wallClockStartedAt == Some(1000) && s2.wallClockEndedAt == Some(1500);
    assert |Tests(r2, strip)| == 0;
  }

  const AssertionFailure := VObj(map["name" := VStr("AssertionError"), "message" := VStr("expected true")])

  /** The first attempt of a test that then fails: counter 0, no history yet, the failure recorded. */
  lemma FirstAttemptFails(t0: Obj, a: Obj, b: Obj)
    requires "_currentRetry" !in t0 && "prevAttempts" !in t0
    requires a == MergeRecord(BeforeRun, t0, map["id" := VStr("t1"), "_currentRetry" := VNum(0)])
    requires b == FailRecord(a, map["id" := VStr("t1"), "err" := AssertionFailure])
    ensures Get(b, "_currentRetry") == Some(VNum(0)) && "prevAttempts" !in b
    ensures Get(b, "state") == Some(VStr("failed")) && Get(b, "err") == Some(AssertionFailure)
  {
    FirstAttemptNoSnapshot(BeforeRun, t0, map["id" := VStr("t1"), "_currentRetry" := VNum(0)]);
    assert Get(a, "_currentRetry") == Some(VNum(0)) && Get(a, "prevAttempts") == None;
    assert Get(b, "prevAttempts") == None;
  }

  /** The retry: an attempt counter of 1 over 0 appends one snapshot. */
  lemma RetryAppends(b: Obj, c: Obj)
    requires Get(b, "_currentRetry") == Some(VNum(0))
    requires c == MergeRecord(BeforeRun, b, map["id" := VStr("t1"), "_currentRetry" := VNum(1)])
    ensures PrevAttempts(c) == PrevAttempts(b) + [Snapshot(b)]
  {
    assert Retried(BeforeRun, b, map["id" := VStr("t1"), "_currentRetry" := VNum(1)]);
  }

  /** The pass: not a retry event, so the history stays and the state is taken. */
  lemma PassKeepsHistory(c: Obj, d: Obj)
    requires d == MergeRecord("pass", c, map["id" := VStr("t1"), "state" := VStr("passed"), "duration" := VNum(50)])
    ensures PrevAttempts(d) == PrevAttempts(c) && Get(d, "state") == Some(VStr("passed"))
  {
    assert !Retried("pass", c, map["id" := VStr("t1"), "state" := VStr("passed"), "duration" := VNum(50)]);
  }

  /** The record of a test that fails its first attempt and passes its retry, event by event. */
  lemma FailThenPassRecord(t0: Obj, a: Obj, b: Obj, c: Obj, d: Obj, strip: string -> string)
    requires "_currentRetry" !in t0 && "prevAttempts" !in t0
    requires a == MergeRecord(BeforeRun, t0, map["id" := VStr("t1"), "_currentRetry" := VNum(0)])
    requires b == FailRecord(a, map["id" := VStr("t1"), "err" := AssertionFailure])
    requires c == MergeRecord(BeforeRun, b, map["id" := VStr("t1"), "_currentRetry" := VNum(1)])
    requires d == MergeRecord("pass", c, map["id" := VStr("t1"), "state" := VStr("passed"), "duration" := VNum(50)])
    ensures |PrevAttempts(d)| == 1
    ensures NormAttemptOf(Fields(PrevAttempts(d)[0]), strip).state == VStr("failed")
    ensures Get(Fields(NormAttemptOf(Fields(PrevAttempts(d)[0]), strip).error), "name") == Some(VStr("AssertionError"))
    ensures NormAttemptOf(d, strip).state == VStr("passed") && OrNull(d, "state") == VStr("passed")
  {
    FirstAttemptFails(t0, a, b);
    RetryAppends(b, c);
    PassKeepsHistory(c, d);
    assert PrevAttempts(d) == [Snapshot(b)];
    var snap := ToAttemptProps(b);
    assert Fields(PrevAttempts(d)[0]) == snap;
    assert Get(snap, "state") == Some(VStr("failed")) && Get(snap, "err") == Some(AssertionFailure);
    assert Truthy(snap, "err") && Get(Fields(snap["err"]), "name") == Some(VStr("AssertionError"));
  }

  /**
   * The driver's `test:before:run` payload for a second attempt, sent through
   * `emit`: `currentRetry` and `retries` reach the record under their Mocha
   * names, the superseded attempt is appended to the history, and the stats stay.
   */
  lemma DriverRetryThroughEmit(reg: Registry, stats: Stats)
    requires "t1" in reg.runnables && Get(reg.runnables["t1"], "_currentRetry") == Some(VNum(0))
    ensures var payload := map["id" := VStr("t1"), "currentRetry" := VNum(1), "retries" := VNum(2)];
      var (r, s, e) := EmitStep(reg, stats, BeforeRun, payload);
      var stored := reg.runnables["t1"];
      s == stats && e.Emitted? && e.event == BeforeRun && "t1" in r.runnables &&
      PrevAttempts(r.runnables["t1"]) == PrevAttempts(stored) + [Snapshot(stored)] &&
      Get(r.runnables["t1"], "_currentRetry") == Some(VNum(1)) &&
      Get(r.runnables["t1"], "_retries") == Some(VNum(2))
  {
    var payload := map["id" := VStr("t1"), "currentRetry" := VNum(1), "retries" := VNum(2)];
    var stored := reg.runnables["t1"];
    var props := ToMochaProps(payload);
    assert Get(props, "_currentRetry") == Some(VNum(1)) && Get(props, "_retries") == Some(VNum(2));
    assert KeyString(Get(props, "id")) == "t1";
    assert Retried(BeforeRun, stored, props);
    assert Events[BeforeRun] == MergeRunnable(BeforeRun);
    var (r, h) := MergeRunnableStep(reg, BeforeRun, payload);
    assert r.runnables["t1"] == MergeRecord(BeforeRun, stored, props);
    assert EmitStep(reg, stats, BeforeRun, payload) == (r, stats, Emitted(BeforeRun, CleanArgs(h.args)));
  }

  const SetupError := VObj(map["name" := VStr("Error"), "message" := VStr("setup broke"), "stack" := VStr("Error: setup broke")])

  /** A failing `before each` hook `h1` run for test `t2` fails `t2` and names the hook. */
  lemma HookFailureBlamesTest(reg: Registry, strip: string -> string)
    requires ParentsWithin(reg, {}) && "t2" in reg.runnables
    ensures var payload := map["id" := VStr("t2"), "type" := VStr("hook"), "hookId" := VStr("h1"), "err" := SetupError];
      var r := MergeErrStep(reg, payload).0;
      ParentsWithin(r, {}) && "t2" in r.runnables &&
      var t := NormTestOf(r, "t2", strip);
      t.state == VStr("failed") && t.displayError == VStr("Error: setup broke") &&
      t.attempts[|t.attempts| - 1].failedFromHookId == VStr("h1")
  {
    var payload := map["id" := VStr("t2"), "type" := VStr("hook"), "hookId" := VStr("h1"), "err" := SetupError];
    assert KeyString(Get(payload, "id")) == "t2";
    assert FromHook(payload);
    var test := MergeErrStep(reg, payload).0.runnables["t2"];
    assert test == FailRecord(reg.runnables["t2"], payload);
    assert Get(test, "err") == Some(SetupError) && Truthy(test, "err");
  }
}
