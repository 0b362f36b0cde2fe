/**
 * JavaScript objects as the reporter handles them: a runnable record, an
 * event payload or an attempt snapshot is a finite map from property name
 * to value. A key that is missing stands for both a missing property and
 * one holding `undefined`; `null` is a value of its own (JSON payloads carry it).
 */
module Records {
  import opened Wrappers

  datatype Value =
    | VNull
    | VStr(s: string)
    | VNum(n: int)
    | VBool(b: bool)
    | VObj(fields: map<string, Value>)
    | VList(items: seq<Value>)

  type Obj = map<string, Value>

  /** JavaScript truthiness of a value. */
  predicate TruthyValue(v: Value) {
    match v
    case VNull => false
    case VStr(s) => s != ""
    case VNum(n) => n != 0
    case VBool(b) => b
    case VObj(_) => true
    case VList(_) => true
  }

  /** Truthiness of `o[k]`; `undefined` is falsy. */
  predicate Truthy(o: Obj, k: string) {
    k in o && TruthyValue(o[k])
  }

  /** `o[k] == null`: the property is missing, `undefined` or `null`. */
  predicate Nullish(o: Obj, k: string) {
    k !in o || o[k] == VNull
  }

  /** `orNull(o[k])` (reporter.js:217-221). */
  function OrNull(o: Obj, k: string): (r: Value)
    ensures r == VNull <==> Nullish(o, k)
    ensures !Nullish(o, k) ==> r == o[k]
  {
    if Nullish(o, k) then VNull else o[k]
  }

  /** `o[k]` as an optional value: `None` for `undefined`. */
  function Get(o: Obj, k: string): Option<Value> {
    if k in o then Some(o[k]) else None
  }

  /** `o[k] = v` where `v` may be `undefined` (which the model stores as a missing key). */
  function Assign(o: Obj, k: string, v: Option<Value>): (r: Obj)
    ensures Get(r, k) == v
    ensures forall j :: j != k ==> Get(r, j) == Get(o, j)
  {
    match v
    case Some(x) => o[k := x]
    case None => o - {k}
  }

  /**
   * The number a JavaScript relational comparison sees: `null` and booleans
   * become numbers, `undefined` becomes NaN (`None`). Strings, objects and
   * lists are not modelled as numbers and also give `None`.
   */
  function NumberOf(o: Obj, k: string): Option<int> {
    if k !in o then None
    else match o[k]
      case VNull => Some(0)
      case VNum(n) => Some(n)
      case VBool(b) => Some(if b then 1 else 0)
      case _ => None
  }

  /** `o[a] > o[b]` between two objects' properties; false whenever either side is NaN. */
  predicate GreaterAt(x: Obj, y: Obj, k: string) {
    var a := NumberOf(x, k);
    var b := NumberOf(y, k);
    a.Some? && b.Some? && a.value > b.value
  }

  /** Decimal spelling of a natural number. */
  function NatToString(n: nat): (r: string)
    decreases n
  {
    var d := ["0", "1", "2", "3", "4", "5", "6", "7", "8", "9"][n % 10];
    if n < 10 then d else NatToString(n / 10) + d
  }

  /** The property key a value becomes when used as `runnables[v]`. */
  function KeyString(v: Option<Value>): string {
    match v
    case None => "undefined"
    case Some(x) => ValueKey(x)
  }

  function ValueKey(x: Value): string
    decreases x, 1
  {
    match x
    case VNull => "null"
    case VStr(s) => s
    case VNum(n) => if n < 0 then "-" + NatToString(-n) else NatToString(n)
    case VBool(b) => if b then "true" else "false"
    case VObj(_) => "[object Object]"
    case VList(items) => JoinKeys(x, |items|)
  }

  /** `Array.prototype.toString` on the first `i` items of a list: keys joined by commas, `null` as empty. */
  function JoinKeys(x: Value, i: nat): string
    requires x.VList? && i <= |x.items|
    decreases x, 0, i
  {
    if i == 0 then ""
    else
      var item := x.items[i - 1];
      var s := if item == VNull then "" else ValueKey(item);
      if i == 1 then s else JoinKeys(x, i - 1) + "," + s
  }

  /** `_.extend(target, src)`: every property of `src` is copied over, all others are kept. */
  function Extend(target: Obj, src: Obj): (r: Obj)
    ensures r.Keys == target.Keys + src.Keys
    ensures forall k :: k in src ==> r[k] == src[k]
    ensures forall k :: k in target && k !in src ==> r[k] == target[k]
  {
    target + src
  }

  /** `_.omit(o, ks)`. */
  function Omit(o: Obj, ks: set<string>): (r: Obj)
    ensures r.Keys == o.Keys - ks
    ensures forall k :: k in r ==> r[k] == o[k]
  {
    o - ks
  }

  /** One step of `toMochaProps`: an own property `from` is moved to `to`. */
  function Rename(o: Obj, from: string, to: string): (r: Obj)
    requires from != to
    ensures from !in r
    ensures from in o ==> to in r && r[to] == o[from]
    ensures from !in o ==> r == o
    ensures forall k :: k != from && k != to ==> Get(r, k) == Get(o, k)
  {
    if from in o then (o - {from})[to := o[from]] else o
  }

  /** `toMochaProps` (reporter.js:112-125): the public retry keys become Mocha's private ones. */
  function ToMochaProps(p: Obj): (r: Obj)
    ensures "currentRetry" !in r && "retries" !in r
    ensures Get(r, "_currentRetry") == if "currentRetry" in p then Some(p["currentRetry"]) else Get(p, "_currentRetry")
    ensures Get(r, "_retries") == if "retries" in p then Some(p["retries"]) else Get(p, "_retries")
    ensures forall k :: k !in MochaPropKeys ==> Get(r, k) == Get(p, k)
  {
    Rename(Rename(p, "currentRetry", "_currentRetry"), "retries", "_retries")
  }

  const MochaPropKeys: set<string> := {"currentRetry", "_currentRetry", "retries", "_retries"}

  /** The properties an attempt snapshot keeps (reporter.js:128-135). */
  const AttemptKeys: set<string> :=
    {"err", "state", "timings", "failedFromHookId", "wallClockStartedAt", "wallClockDuration"}

  /** `toAttemptProps` (reporter.js:127-136): `_.pick` of the attempt keys. */
  function ToAttemptProps(o: Obj): (r: Obj)
    ensures r.Keys == o.Keys * AttemptKeys
    ensures forall k :: k in r ==> r[k] == o[k]
  {
    map k | k in o && k in AttemptKeys :: o[k]
  }

  /** Renaming twice is renaming once: the public keys are gone after the first pass. */
  lemma ToMochaPropsIdempotent(p: Obj)
    ensures ToMochaProps(ToMochaProps(p)) == ToMochaProps(p)
  {
    var q := ToMochaProps(p);
    assert Rename(q, "currentRetry", "_currentRetry") == q;
    assert Rename(q, "retries", "_retries") == q;
  }

  /** A snapshot of a snapshot is the snapshot itself. */
  lemma ToAttemptPropsIdempotent(o: Obj)
    ensures ToAttemptProps(ToAttemptProps(o)) == ToAttemptProps(o)
  {
  }
}
