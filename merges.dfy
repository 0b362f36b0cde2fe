/**
 * How one event's payload is folded into a stored record: `mergeRunnable`
 * with its retry snapshot, the hook record of `safelyMergeRunnable`, and
 * the failure re-attribution of `mergeErr` (reporter.js:127-197).
 */
module Merges {
  import opened Wrappers
  import opened Records

  const BeforeRun: string := "test:before:run"

  /** The properties removed from the live record when a retry is detected (reporter.js:149-154). */
  const ClearedOnRetry: set<string> := {"prevAttempts", "failedFromHookId", "err", "hookName"}

  /** `runnable.prevAttempts || []`; a stored value that is not a list is not modelled and reads as `[]`. */
  function PrevAttempts(o: Obj): seq<Value> {
    if "prevAttempts" in o && o["prevAttempts"].VList? then o["prevAttempts"].items else []
  }

  /** The retry check: `testProps._currentRetry > runnable._currentRetry` on `test:before:run`. */
  predicate Retried(eventName: string, stored: Obj, props: Obj) {
    eventName == BeforeRun && GreaterAt(props, stored, "_currentRetry")
  }

  /** `toAttemptProps(runnable)` as a list item. */
  function Snapshot(stored: Obj): Value {
    VObj(ToAttemptProps(stored))
  }

  /**
   * The stored record after `mergeRunnable(eventName)` with the already renamed
   * payload `props` (reporter.js:138-161).
   */
  function MergeRecord(eventName: string, stored: Obj, props: Obj): (r: Obj)
    // a retry appends exactly one snapshot of the superseded attempt; a list the payload brings is overwritten
    ensures Retried(eventName, stored, props) ==>
      Get(r, "prevAttempts") == Some(VList(PrevAttempts(stored) + [Snapshot(stored)]))
    // a retry clears the previous attempt's error, failing hook and hook name
    ensures Retried(eventName, stored, props) ==>
      forall k :: k in ClearedOnRetry - {"prevAttempts"} ==> Get(r, k) == Get(props, k)
    // otherwise the history is whatever it was, unless the payload overrides it
    ensures !Retried(eventName, stored, props) ==>
      Get(r, "prevAttempts") == Get(if "prevAttempts" in props then props else stored, "prevAttempts")
    // incoming wins, everything else is kept
    ensures forall k :: k in props && (k != "prevAttempts" || !Retried(eventName, stored, props)) ==> Get(r, k) == Some(props[k])
    ensures forall k :: k !in props && (k !in ClearedOnRetry || !Retried(eventName, stored, props)) ==> Get(r, k) == Get(stored, k)
  {
    if Retried(eventName, stored, props) then
      Extend(stored - ClearedOnRetry, props["prevAttempts" := VList(PrevAttempts(stored) + [Snapshot(stored)])])
    else
      Extend(stored, props)
  }

  /** The snapshot is the same whether it is taken before or after the history is detached. */
  lemma SnapshotWithoutHistory(stored: Obj)
    ensures VObj(ToAttemptProps(stored - {"prevAttempts"})) == Snapshot(stored)
  {
    assert ToAttemptProps(stored - {"prevAttempts"}).Keys == ToAttemptProps(stored).Keys;
  }

  /** Deleting the history, then the error fields, clears what a retry clears. */
  lemma ClearedInTwoSteps(stored: Obj)
    ensures stored - {"prevAttempts"} - {"failedFromHookId", "err", "hookName"} == stored - ClearedOnRetry
  {
  }

  /** The first attempt never snapshots: a stored counter that is `undefined` compares as NaN. */
  lemma FirstAttemptNoSnapshot(eventName: string, stored: Obj, props: Obj)
    requires "_currentRetry" !in stored
    ensures !Retried(eventName, stored, props)
    ensures MergeRecord(eventName, stored, props) == Extend(stored, props)
  {
  }

  /** The record after a run of `test:before:run` payloads, in order. */
  function RetryFold(stored: Obj, ps: seq<Obj>): Obj
    decreases |ps|
  {
    if ps == [] then stored
    else MergeRecord(BeforeRun, RetryFold(stored, ps[..|ps| - 1]), ps[|ps| - 1])
  }

  function Counter(p: Obj): int
    requires "_currentRetry" in p && p["_currentRetry"].VNum?
  {
    p["_currentRetry"].n
  }

  /** Payloads numbering attempts with strictly increasing counters. */
  ghost predicate IncreasingAttempts(ps: seq<Obj>) {
    (forall i :: 0 <= i < |ps| ==> "_currentRetry" in ps[i] && ps[i]["_currentRetry"].VNum?) &&
    (forall i, j :: 0 <= i < j < |ps| ==> Counter(ps[i]) < Counter(ps[j]))
  }

  /**
   * Each retry adds exactly one attempt to the history, oldest first: after n
   * attempts with increasing counters, all above the stored one, the history
   * has grown by n and still starts with the old history.
   */
  lemma {:induction false} HistoryGrowsByOnePerRetry(stored: Obj, ps: seq<Obj>, base: int)
    requires IncreasingAttempts(ps)
    requires NumberOf(stored, "_currentRetry") == Some(base)
    requires |ps| > 0 ==> base < Counter(ps[0])
    ensures |PrevAttempts(RetryFold(stored, ps))| == |PrevAttempts(stored)| + |ps|
    ensures PrevAttempts(stored) <= PrevAttempts(RetryFold(stored, ps))
    ensures NumberOf(RetryFold(stored, ps), "_currentRetry") == Some(if ps == [] then base else Counter(ps[|ps| - 1]))
    decreases |ps|
  {
    if ps != [] {
      var front := ps[..|ps| - 1];
      assert IncreasingAttempts(front);
      HistoryGrowsByOnePerRetry(stored, front, base);
      var mid := RetryFold(stored, front);
      var p := ps[|ps| - 1];
      if front != [] {
        assert Counter(front[|front| - 1]) < Counter(p);
      }
      assert Retried(BeforeRun, mid, p);
    }
  }

  /** The hook record `safelyMergeRunnable` creates (reporter.js:164-173). */
  function HookRecord(hookProps: Obj): (r: Obj)
    ensures r.Keys <= {"hookId", "type", "title", "body", "hookName"}
    ensures forall k :: k in {"hookId", "type", "title", "body", "hookName"} ==> Get(r, k) == Get(hookProps, k)
  {
    Assign(Assign(Assign(Assign(Assign(map[], "hookId", Get(hookProps, "hookId")),
      "type", Get(hookProps, "type")), "title", Get(hookProps, "title")),
      "body", Get(hookProps, "body")), "hookName", Get(hookProps, "hookName"))
  }

  /** Whether the failing runnable is a hook: `runnable.type === 'hook'`. */
  predicate FromHook(runnable: Obj) {
    Get(runnable, "type") == Some(VStr("hook"))
  }

  /** The stored test after `mergeErr` writes the failure into it (reporter.js:182-189). */
  function FailRecord(test: Obj, runnable: Obj): (r: Obj)
    ensures Get(r, "state") == Some(VStr("failed"))
    ensures Get(r, "err") == Get(runnable, "err")
    ensures Get(r, "failedFromHookId") == if FromHook(runnable) then Get(runnable, "hookId") else Get(test, "failedFromHookId")
    ensures forall k :: k !in {"state", "err", "failedFromHookId"} ==> Get(r, k) == Get(test, k)
  {
    var t := Assign(Assign(test, "err", Get(runnable, "err")), "state", Some(VStr("failed")));
    if FromHook(runnable) then Assign(t, "failedFromHookId", Get(runnable, "hookId")) else t
  }

  /** The copy `mergeErr` hands on: the failed test under the failing runnable's title (reporter.js:194). */
  function FailCopy(test: Obj, runnable: Obj): (r: Obj)
    ensures Get(r, "title") == Get(runnable, "title")
    ensures forall k :: k != "title" ==> Get(r, k) == Get(FailRecord(test, runnable), k)
  {
    Assign(FailRecord(test, runnable), "title", Get(runnable, "title"))
  }
}
