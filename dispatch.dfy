/**
 * The event table and what each handler does to the registry and stats,
 * stated on values (reporter.js:138-238, 333-360). The `Reporter` class
 * performs these steps in place.
 */
module Dispatch {
  import opened Wrappers
  import opened Records
  import opened Tree
  import opened Merges
  import opened Projection

  /** The handlers the table maps event names to. */
  datatype Handler =
    | SetDate
    | MergeRunnable(eventName: string)
    | SafelyMergeRunnable
    | PassThrough   // `'retry': true`: the payload is emitted as it came
    | MergeErr

  /** The `events` table (reporter.js:223-238). */
  const Events: map<string, Handler> := map[
    "start" := SetDate,
    "end" := SetDate,
    "suite" := MergeRunnable("suite"),
    "suite end" := MergeRunnable("suite end"),
    "test" := MergeRunnable("test"),
    "test end" := MergeRunnable("test end"),
    "hook" := SafelyMergeRunnable,
    "retry" := PassThrough,
    "hook end" := SafelyMergeRunnable,
    "pass" := MergeRunnable("pass"),
    "pending" := MergeRunnable("pending"),
    "fail" := MergeErr,
    "test:after:run" := MergeRunnable("test:after:run"),
    "test:before:run" := MergeRunnable("test:before:run")]

  /**
   * An argument handed on to Mocha's runner: a stored Mocha object, a plain
   * object (a fresh copy or a payload), another value, or `undefined`.
   */
  datatype Arg = Instance(obj: Obj) | Plain(obj: Obj) | Raw(v: Value) | Undefined

  /** What a handler produced: its argument list, or the `TypeError` an unregistered id causes. */
  datatype Handled = Args(args: seq<Arg>) | TypeError

  /** What `emit` does: nothing for an unknown event, else the `runner.emit` call it makes or the error it throws. */
  datatype Emission = Ignored | Emitted(event: string, args: seq<Arg>) | Threw

  function ArgOf(v: Option<Value>): Arg {
    match v
    case Some(x) => Raw(x)
    case None => Undefined
  }

  /** `mergeRunnable(eventName)` on a registry value (reporter.js:138-161). */
  function MergeRunnableStep(reg: Registry, eventName: string, testProps: Obj): (Registry, Handled) {
    var props := ToMochaProps(testProps);
    var key := KeyString(Get(props, "id"));
    if key in reg.runnables then
      var merged := MergeRecord(eventName, reg.runnables[key], props);
      // a hook record stays the object literal `safelyMergeRunnable` made; the others are Mocha objects
      (reg.(runnables := reg.runnables[key := merged]), Args([if key in reg.plain then Plain(merged) else Instance(merged)]))
    else if eventName == BeforeRun then
      (reg, TypeError)
    else
      // `_.extend(undefined, props)` extends a fresh object instead
      (reg, Args([Plain(props)]))
  }

  /** `safelyMergeRunnable` on a registry value (reporter.js:163-177). */
  function SafelyMergeStep(reg: Registry, hookProps: Obj): (Registry, Handled) {
    var hk := KeyString(Get(hookProps, "hookId"));
    var r := if hk in reg.runnables then reg else
      var inserted := Insert(reg, hk, HookRecord(hookProps), None);
      inserted.(plain := inserted.plain + {hk});
    var id := KeyString(Get(hookProps, "id"));
    var base := if id in r.runnables then r.runnables[id] else map[];
    (r, Args([Plain(Extend(base, hookProps))]))
  }

  /** `mergeErr` on a registry value (reporter.js:179-197). */
  function MergeErrStep(reg: Registry, runnable: Obj): (Registry, Handled) {
    var key := KeyString(Get(runnable, "id"));
    if key in reg.runnables then
      var test := reg.runnables[key];
      (reg.(runnables := reg.runnables[key := FailRecord(test, runnable)]),
       Args([Plain(FailCopy(test, runnable)), ArgOf(Get(runnable, "err"))]))
    else (reg, TypeError)
  }

  /** `new Date(s)` for a timestamp; only numeric timestamps are modelled. */
  function DateOf(v: Value): Option<int> {
    if v.VNum? then Some(v.n) else None
  }

  /** `setDate` (reporter.js:199-215): truthy `start` and `end` become the wall-clock bounds. */
  function SetDateStep(stats: Stats, obj: Obj): (r: Stats)
    ensures r.(wallClockStartedAt := stats.wallClockStartedAt, wallClockEndedAt := stats.wallClockEndedAt) == stats
    ensures r.wallClockStartedAt == if Truthy(obj, "start") && obj["start"].VNum? then Some(obj["start"].n) else stats.wallClockStartedAt
    ensures r.wallClockEndedAt == if Truthy(obj, "end") && obj["end"].VNum? then Some(obj["end"].n) else stats.wallClockEndedAt
  {
    var s := if Truthy(obj, "start") && DateOf(obj["start"]).Some? then stats.(wallClockStartedAt := DateOf(obj["start"])) else stats;
    if Truthy(obj, "end") && DateOf(obj["end"]).Some? then s.(wallClockEndedAt := DateOf(obj["end"])) else s
  }

  /** `parseArgs`'s clean-up of the first argument: plain objects lose `id` and `hookId` (reporter.js:353-355). */
  function CleanArgs(args: seq<Arg>): (r: seq<Arg>)
    ensures |r| == if args == [] then 1 else |args|
    ensures r[0].Plain? ==> "id" !in r[0].obj && "hookId" !in r[0].obj
    ensures args != [] && args[0].Plain? ==> r[0] == Plain(Omit(args[0].obj, {"id", "hookId"}))
    ensures args != [] && !args[0].Plain? ==> r[0] == args[0]
    ensures args == [] ==> r == [Undefined]
    ensures forall i :: 1 <= i < |args| ==> r[i] == args[i]
  {
    var first := if args == [] then Undefined else args[0];
    var cleaned := if first.Plain? then Plain(Omit(first.obj, {"id", "hookId"})) else first;
    [cleaned] + (if args == [] then [] else args[1..])
  }

  /** `emit(event, arg)` on values: the new registry, the new stats and what was handed to the runner. */
  function EmitStep(reg: Registry, stats: Stats, event: string, arg: Obj): (Registry, Stats, Emission) {
    if event !in Events then (reg, stats, Ignored)
    else
      var (r, s, h) :=
        match Events[event]
        case SetDate => (reg, SetDateStep(stats, arg), Args([]))
        case MergeRunnable(name) => var (r, h) := MergeRunnableStep(reg, name, arg); (r, stats, h)
        case SafelyMergeRunnable => var (r, h) := SafelyMergeStep(reg, arg); (r, stats, h)
        case PassThrough => (reg, stats, Args([Plain(arg)]))
        case MergeErr => var (r, h) := MergeErrStep(reg, arg); (r, stats, h);
      if h.TypeError? then (r, s, Threw) else (r, s, Emitted(event, CleanArgs(h.args)))
  }

  /** An event missing from the table changes nothing and is not handed on (reporter.js:338-339). */
  lemma UnknownEventIgnored(reg: Registry, stats: Stats, event: string, arg: Obj)
    requires event !in Events
    ensures EmitStep(reg, stats, event, arg) == (reg, stats, Ignored)
  {
  }

  /** Whatever the event, a plain first argument reaches the runner without `id` or `hookId`. */
  lemma EmittedArgsArePublic(reg: Registry, stats: Stats, event: string, arg: Obj)
    ensures var e := EmitStep(reg, stats, event, arg).2;
      e.Emitted? ==>
        |e.args| >= 1 && e.event == event &&
        (e.args[0].Plain? ==> "id" !in e.args[0].obj && "hookId" !in e.args[0].obj)
  {
  }

  /** `retry` only hands its payload on: registry and stats are untouched. */
  lemma RetryIsLogOnly(reg: Registry, stats: Stats, arg: Obj)
    ensures EmitStep(reg, stats, "retry", arg) == (reg, stats, Emitted("retry", [Plain(Omit(arg, {"id", "hookId"}))]))
  {
    assert Events["retry"] == PassThrough;
    assert CleanArgs([Plain(arg)]) == [Plain(Omit(arg, {"id", "hookId"}))];
  }

  /**
   * An id that names no record: `fail` and `test:before:run` throw a `TypeError`
   * (reporter.js:145, 182-185), while every other `mergeRunnable` event
   * silently hands on a plain copy of the renamed payload (reporter.js:159).
   */
  lemma UnregisteredIdPaths(reg: Registry, stats: Stats, event: string, arg: Obj)
    requires event in Events
    requires KeyString(Get(ToMochaProps(arg), "id")) !in reg.runnables
    requires KeyString(Get(arg, "id")) !in reg.runnables
    ensures event == "fail" || event == BeforeRun ==> EmitStep(reg, stats, event, arg) == (reg, stats, Threw)
    ensures Events[event].MergeRunnable? && event != BeforeRun ==>
      EmitStep(reg, stats, event, arg) == (reg, stats, Emitted(event, CleanArgs([Plain(ToMochaProps(arg))])))
  {
  }

  /** A merge changes only the record of the payload's id, and keeps order and parent links. */
  lemma MergeTouchesOneRecord(reg: Registry, eventName: string, testProps: Obj)
    ensures var r := MergeRunnableStep(reg, eventName, testProps).0;
      var key := KeyString(Get(ToMochaProps(testProps), "id"));
      r.order == reg.order && r.parentOf == reg.parentOf && r.runnables.Keys == reg.runnables.Keys &&
      forall k :: k in reg.runnables && k != key ==> r.runnables[k] == reg.runnables[k]
  {
  }

  /**
   * A hook record is created once: an existing record under the hook id is
   * never replaced, and apart from the new hook record the registry is unchanged.
   */
  lemma HookCreatedOnce(reg: Registry, hookProps: Obj, later: Obj)
    requires Valid(reg)
    requires KeyString(Get(later, "hookId")) == KeyString(Get(hookProps, "hookId"))
    ensures var r := SafelyMergeStep(reg, hookProps).0;
      var hk := KeyString(Get(hookProps, "hookId"));
      hk in r.runnables &&
      r.runnables[hk] == (if hk in reg.runnables then reg.runnables[hk] else HookRecord(hookProps)) &&
      SafelyMergeStep(r, later).0 == r
    ensures var r := SafelyMergeStep(reg, hookProps).0;
      var hk := KeyString(Get(hookProps, "hookId"));
      (hk in reg.runnables ==> r == reg) &&
      (forall k :: k in reg.runnables ==> k in r.runnables && r.runnables[k] == reg.runnables[k]) &&
      r.runnables.Keys == reg.runnables.Keys + {hk} &&
      r.parentOf == reg.parentOf &&
      (hk !in reg.runnables ==> r.order == reg.order + [hk] && r.plain == reg.plain + {hk})
  {
    var hk := KeyString(Get(hookProps, "hookId"));
    if hk !in reg.runnables {
      InsertWrites(reg, hk, HookRecord(hookProps), None);
      assert hk !in reg.order && hk !in reg.parentOf;
      assert reg.parentOf - {hk} == reg.parentOf;
    }
  }

  /** A failure event marks the owning test failed and changes no other record. */
  lemma FailureMarksOwningTest(reg: Registry, runnable: Obj)
    requires KeyString(Get(runnable, "id")) in reg.runnables
    ensures var key := KeyString(Get(runnable, "id"));
      var (r, h) := MergeErrStep(reg, runnable);
      Get(r.runnables[key], "state") == Some(VStr("failed")) &&
      Get(r.runnables[key], "err") == Get(runnable, "err") &&
      (FromHook(runnable) ==> Get(r.runnables[key], "failedFromHookId") == Get(runnable, "hookId")) &&
      Get(r.runnables[key], "title") == Get(reg.runnables[key], "title") &&
      h.Args? && h.args[0].Plain? && Get(h.args[0].obj, "title") == Get(runnable, "title") &&
      r.order == reg.order && r.parentOf == reg.parentOf &&
      forall k :: k in reg.runnables && k != key ==> r.runnables[k] == reg.runnables[k]
  {
  }

  /**
   * What `hook` and `hook end` hand on is the record under the payload's `id`
   * (the test the hook runs for) extended by the payload, not the hook record
   * (reporter.js:176); an unregistered `id` gives a plain copy of the payload.
   */
  lemma HookPassesOnOwningTest(reg: Registry, hookProps: Obj)
    requires KeyString(Get(hookProps, "id")) != KeyString(Get(hookProps, "hookId"))
    ensures var id := KeyString(Get(hookProps, "id"));
      var h := SafelyMergeStep(reg, hookProps).1;
      (id in reg.runnables ==>
        h == Args([Plain(Extend(reg.runnables[id], hookProps))]) &&
        forall k :: k in reg.runnables[id] && k !in hookProps ==> h.args[0].obj[k] == reg.runnables[id][k]) &&
      (id !in reg.runnables ==> h == Args([Plain(hookProps)]))
  {
    assert Extend(map[], hookProps) == hookProps;
  }

  /** `mergeRunnable` keeps the registry invariant: it only replaces a registered record. */
  lemma MergeRunnableKeepsValid(reg: Registry, eventName: string, testProps: Obj)
    requires Valid(reg)
    ensures Valid(MergeRunnableStep(reg, eventName, testProps).0)
  {
    var props := ToMochaProps(testProps);
    var key := KeyString(Get(props, "id"));
    if key in reg.runnables {
      ReplaceKeepsValid(reg, key, MergeRecord(eventName, reg.runnables[key], props));
    }
  }

  /** `safelyMergeRunnable` keeps the registry invariant: a new hook record has no parent. */
  lemma SafelyMergeKeepsValid(reg: Registry, hookProps: Obj)
    requires Valid(reg)
    ensures Valid(SafelyMergeStep(reg, hookProps).0)
  {
    var hk := KeyString(Get(hookProps, "hookId"));
    if hk !in reg.runnables {
      InsertOrder(reg, hk, HookRecord(hookProps), None);
      InsertWrites(reg, hk, HookRecord(hookProps), None);
    }
  }

  /** `mergeErr` keeps the registry invariant: it only replaces a registered record. */
  lemma MergeErrKeepsValid(reg: Registry, runnable: Obj)
    requires Valid(reg)
    ensures Valid(MergeErrStep(reg, runnable).0)
  {
    var key := KeyString(Get(runnable, "id"));
    if key in reg.runnables {
      ReplaceKeepsValid(reg, key, FailRecord(reg.runnables[key], runnable));
    }
  }

  /**
   * A hook record is an object literal, so when a later event merges into it,
   * the runner gets it without `id` and `hookId` (reporter.js:167-173, 355).
   */
  lemma HookRecordReachesRunnerStripped(reg: Registry, stats: Stats, hookProps: Obj, event: string, testProps: Obj)
    requires event in Events && Events[event].MergeRunnable?
    requires KeyString(Get(hookProps, "hookId")) !in reg.runnables
    requires KeyString(Get(ToMochaProps(testProps), "id")) == KeyString(Get(hookProps, "hookId"))
    ensures var (r1, s1, _) := EmitStep(reg, stats, "hook", hookProps);
      var e := EmitStep(r1, s1, event, testProps).2;
      e.Emitted? && e.args[0].Plain? && "id" !in e.args[0].obj && "hookId" !in e.args[0].obj
  {
    var hk := KeyString(Get(hookProps, "hookId"));
    InsertWrites(reg, hk, HookRecord(hookProps), None);
    EmitHook(reg, stats, hookProps);
    var r1 := SafelyMergeStep(reg, hookProps).0;
    MergeIntoPlainRecord(r1, Events[event].eventName, testProps);
    EmitMerge(r1, stats, event, testProps);
  }

  /** `hook` and `hook end` go to `safelyMergeRunnable` and leave the stats alone. */
  lemma EmitHook(reg: Registry, stats: Stats, hookProps: Obj)
    ensures EmitStep(reg, stats, "hook", hookProps).0 == SafelyMergeStep(reg, hookProps).0
    ensures EmitStep(reg, stats, "hook", hookProps).1 == stats
  {
  }

  /** An event of the `mergeRunnable` kind hands on what the handler returns, cleaned. */
  lemma EmitMerge(reg: Registry, stats: Stats, event: string, testProps: Obj)
    requires event in Events && Events[event].MergeRunnable?
    ensures var h := MergeRunnableStep(reg, Events[event].eventName, testProps).1;
      h.Args? ==> EmitStep(reg, stats, event, testProps).2 == Emitted(event, CleanArgs(h.args))
  {
  }

  /** Merging into a registered object literal hands it on as a plain object. */
  lemma MergeIntoPlainRecord(reg: Registry, eventName: string, testProps: Obj)
    requires var key := KeyString(Get(ToMochaProps(testProps), "id")); key in reg.runnables && key in reg.plain
    ensures var h := MergeRunnableStep(reg, eventName, testProps).1;
      h.Args? && |h.args| == 1 && h.args[0].Plain?
  {
  }

  /** Every event keeps the registry invariant. */
  lemma EmitKeepsValid(reg: Registry, stats: Stats, event: string, arg: Obj)
    requires Valid(reg)
    ensures Valid(EmitStep(reg, stats, event, arg).0)
  {
    if event in Events {
      match Events[event]
      case MergeRunnable(name) => MergeRunnableKeepsValid(reg, name, arg);
      case SafelyMergeRunnable => SafelyMergeKeepsValid(reg, arg);
      case MergeErr => MergeErrKeepsValid(reg, arg);
      case _ =>
    }
  }
}
