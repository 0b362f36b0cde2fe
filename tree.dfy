/**
 * The runnable registry (`this.runnables`) and how `setRunnables` fills it
 * from the declared tree of suites and tests (reporter.js:66-110, 303-331).
 */
module Tree {

  import opened Wrappers
  import opened Records

  /**
   * The registry: records by key, their keys in insertion order (the order
   * in which `_.chain(this.runnables)` visits them), and the Mocha `parent`
   * back-reference of each record, held as the parent's key. `plain` holds the
   * keys whose record is an object literal (the hook records
   * `safelyMergeRunnable` writes) rather than a Mocha `Suite` or `Test`.
   */
  datatype Registry = Registry(runnables: map<string, Obj>, order: seq<string>, parentOf: map<string, string>, plain: set<string>)

  const EmptyRegistry := Registry(map[], [], map[], {})

  /** Keys are listed once each, exactly the keys of the map. */
  ghost predicate OrderMatches(reg: Registry) {
    (forall i, j :: 0 <= i < j < |reg.order| ==> reg.order[i] != reg.order[j]) &&
    (forall k :: k in reg.runnables <==> k in reg.order)
  }

  /** Every parent link starts at a record and ends at a record or at a key of `pending`. */
  ghost predicate ParentsWithin(reg: Registry, pending: set<string>) {
    forall k :: k in reg.parentOf ==> k in reg.runnables && (reg.parentOf[k] in reg.runnables || reg.parentOf[k] in pending)
  }

  /** The registry invariant: insertion order is faithful and every parent is registered. */
  ghost predicate Valid(reg: Registry) {
    OrderMatches(reg) && ParentsWithin(reg, {})
  }

  /** `this.runnables[key] = obj` for a freshly built Mocha object whose `parent` is `parent`. */
  function Insert(reg: Registry, key: string, obj: Obj, parent: Option<string>): Registry {
    Registry(
      reg.runnables[key := obj],
      if key in reg.order then reg.order else reg.order + [key],
      match parent
      case Some(p) => reg.parentOf[key := p]
      case None => reg.parentOf - {key},
      reg.plain - {key})
  }

  /**
   * The write replaces the record under `key` and nothing else, appends `key`
   * to the order when it is new, and links it to `parent` (or unlinks it).
   */
  lemma InsertWrites(reg: Registry, key: string, obj: Obj, parent: Option<string>)
    ensures Insert(reg, key, obj, parent).runnables == reg.runnables[key := obj]
    ensures Insert(reg, key, obj, parent).order == if key in reg.order then reg.order else reg.order + [key]
    ensures parent.Some? ==> Insert(reg, key, obj, parent).parentOf == reg.parentOf[key := parent.value]
    ensures parent.None? ==> Insert(reg, key, obj, parent).parentOf == reg.parentOf - {key}
    ensures Insert(reg, key, obj, parent).plain == reg.plain - {key}
  {
  }

  /** A declared runnable: its own properties and its declared child tests and suites. */
  datatype Node = Node(props: Obj, tests: seq<Node>, suites: seq<Node>)

  /** The registry key of a declared runnable: `runnableProps.id` used as a property key. */
  function NodeKey(n: Node): string {
    KeyString(Get(n.props, "id"))
  }

  /** The properties of `props` named in `keys`, and nothing else. */
  function CopyKeys(props: Obj, keys: seq<string>): Obj {
    if keys == [] then map[]
    else
      var rest := CopyKeys(props, keys[1..]);
      if keys[0] in props then rest[keys[0] := props[keys[0]]] else rest
  }

  /** A copied property reads as in `props`; every other property is missing. */
  lemma {:induction false} CopyKeysGet(props: Obj, keys: seq<string>, k: string)
    ensures Get(CopyKeys(props, keys), k) == if k in keys then Get(props, k) else None
  {
    if keys != [] {
      CopyKeysGet(props, keys[1..], k);
      assert k in keys <==> k == keys[0] || k in keys[1..];
    }
  }

  const SuiteKeys: seq<string> := ["title", "file", "id"]

  /** The object `createSuite` builds, with `id` assigned (reporter.js:66-77, 326). */
  function SuiteRecord(props: Obj): Obj {
    CopyKeys(props, SuiteKeys)["root" := VBool(Truthy(props, "root"))]
  }

  /** A suite object has no `type`, a boolean `root`, and the declared `id` and `title`. */
  lemma SuiteRecordFields(props: Obj)
    ensures "type" !in SuiteRecord(props)
    ensures Get(SuiteRecord(props), "root") == Some(VBool(Truthy(props, "root")))
    ensures Get(SuiteRecord(props), "id") == Get(props, "id")
    ensures Get(SuiteRecord(props), "title") == Get(props, "title")
    ensures Get(SuiteRecord(props), "file") == Get(props, "file")
  {
    CopyKeysGet(props, SuiteKeys, "type");
    CopyKeysGet(props, SuiteKeys, "id");
    CopyKeysGet(props, SuiteKeys, "title");
    CopyKeysGet(props, SuiteKeys, "file");
  }

  const CopiedTestKeys: set<string> := {"timedOut", "async", "sync", "duration", "_retries", "_currentRetry", "id"}
  const TestKeys: seq<string> := ["timedOut", "async", "sync", "duration", "_retries", "_currentRetry", "id", "title"]

  /**
   * The object `createRunnable` builds, with `id` assigned (reporter.js:79-110, 326).
   * Mocha's Test constructor contributes `type: 'test'` and a body that is
   * `fn.toString()` (the declared body) or `''` when there is no function.
   */
  function TestRecord(props: Obj): Obj {
    CopyKeys(props, TestKeys)["type" := VStr("test")]
      ["body" := if Truthy(props, "body") then props["body"] else VStr("")]
      ["state" := if Nullish(props, "state") then VStr("skipped") else props["state"]]
  }

  /**
   * A test object is typed `'test'`, keeps the declared title and the copied
   * properties, has a body, and has the state `'skipped'` unless one was declared.
   */
  lemma TestRecordFields(props: Obj)
    ensures Get(TestRecord(props), "type") == Some(VStr("test"))
    ensures Get(TestRecord(props), "title") == Get(props, "title")
    ensures Get(TestRecord(props), "state") == Some(if Nullish(props, "state") then VStr("skipped") else props["state"])
    ensures Get(TestRecord(props), "body") == Some(if Truthy(props, "body") then props["body"] else VStr(""))
    ensures forall k :: k in CopiedTestKeys ==> Get(TestRecord(props), k) == Get(props, k)
  {
    CopyKeysGet(props, TestKeys, "title");
    forall k | k in CopiedTestKeys
      ensures Get(TestRecord(props), k) == Get(props, k)
    {
      CopyKeysGet(props, TestKeys, k);
    }
  }

  /** One registry write of the materialisation: the declaration of a suite or a test and its parent's key. */
  datatype Entry = Entry(key: string, props: Obj, asSuite: bool, parent: Option<string>) {
    /** The object written under `key`. */
    function Record(): Obj {
      if asSuite then SuiteRecord(props) else TestRecord(props)
    }
  }

  /**
   * The registry writes `_createRunnable(n, type, parent)` makes, in order: for a
   * suite, its tests, then its suites, then the suite itself.
   */
  function Entries(n: Node, asSuite: bool, parent: Option<string>): seq<Entry>
    decreases n, 1, 0
  {
    if asSuite then
      KidEntries(n, false, |n.tests|) + KidEntries(n, true, |n.suites|)
      + [Entry(NodeKey(n), n.props, true, parent)]
    else
      [Entry(NodeKey(n), n.props, false, parent)]
  }

  /** The `i`-th declared test (or suite) of suite `n`, counting from 1. */
  function Kid(n: Node, suites: bool, i: nat): (r: Node)
    requires 0 < i <= if suites then |n.suites| else |n.tests|
    ensures r in (if suites then n.suites else n.tests)
  {
    if suites then n.suites[i - 1] else n.tests[i - 1]
  }

  /** The writes for the first `i` declared tests (or suites) of suite `n`. */
  function KidEntries(n: Node, suites: bool, i: nat): seq<Entry>
    requires i <= if suites then |n.suites| else |n.tests|
    decreases n, 0, i
  {
    if i == 0 then []
    else
      KidEntries(n, suites, i - 1) + Entries(Kid(n, suites, i), suites, Some(NodeKey(n)))
  }

  /** The registry after the writes `es`, in order. */
  function ApplyAll(reg: Registry, es: seq<Entry>): Registry
    decreases |es|
  {
    if es == [] then reg
    else
      var e := es[|es| - 1];
      Insert(ApplyAll(reg, es[..|es| - 1]), e.key, e.Record(), e.parent)
  }

  lemma {:induction false} ApplyAllAppend(reg: Registry, a: seq<Entry>, b: seq<Entry>)
    ensures ApplyAll(reg, a + b) == ApplyAll(ApplyAll(reg, a), b)
    decreases |b|
  {
    if b == [] {
      assert a + b == a;
    } else {
      var b' := b[..|b| - 1];
      assert (a + b)[..|a + b| - 1] == a + b';
      ApplyAllAppend(reg, a, b');
    }
  }

  lemma LastEntry(reg: Registry, es: seq<Entry>, e: Entry)
    ensures ApplyAll(reg, es + [e]) == Insert(ApplyAll(reg, es), e.key, e.Record(), e.parent)
  {
    assert (es + [e])[..|es|] == es;
  }

  /** Materialising one more child of suite `n` extends the writes by that child's. */
  lemma KidStep(reg: Registry, n: Node, suites: bool, i: nat)
    requires 0 < i <= if suites then |n.suites| else |n.tests|
    ensures ApplyAll(reg, KidEntries(n, suites, i)) ==
      ApplyAll(ApplyAll(reg, KidEntries(n, suites, i - 1)), Entries(Kid(n, suites, i), suites, Some(NodeKey(n))))
  {
    ApplyAllAppend(reg, KidEntries(n, suites, i - 1), Entries(Kid(n, suites, i), suites, Some(NodeKey(n))));
  }

  /**
   * The registry after materialising `n` under `parent`, computed the way
   * `_createRunnable` recurses: the children first, then the node itself.
   */
  function Materialise(reg: Registry, n: Node, asSuite: bool, parent: Option<string>): Registry
    decreases n, 1, 0
  {
    if asSuite then
      var kids := MaterialiseKids(MaterialiseKids(reg, n, false, |n.tests|), n, true, |n.suites|);
      Insert(kids, NodeKey(n), SuiteRecord(n.props), parent)
    else Insert(reg, NodeKey(n), TestRecord(n.props), parent)
  }

  /** The registry after materialising the first `i` declared tests (or suites) of suite `n`. */
  function MaterialiseKids(reg: Registry, n: Node, suites: bool, i: nat): Registry
    requires i <= if suites then |n.suites| else |n.tests|
    decreases n, 0, i
  {
    if i == 0 then reg
    else Materialise(MaterialiseKids(reg, n, suites, i - 1), Kid(n, suites, i), suites, Some(NodeKey(n)))
  }

  /** The recursion performs exactly the writes `Entries` lists, in that order. */
  lemma {:induction false} MaterialiseIsApplyAll(reg: Registry, n: Node, asSuite: bool, parent: Option<string>)
    ensures Materialise(reg, n, asSuite, parent) == ApplyAll(reg, Entries(n, asSuite, parent))
    decreases n, 1, 0
  {
    var e := Entry(NodeKey(n), n.props, asSuite, parent);
    if asSuite {
      var t := KidEntries(n, false, |n.tests|);
      var s := KidEntries(n, true, |n.suites|);
      MaterialiseKidsIsApplyAll(reg, n, false, |n.tests|);
      MaterialiseKidsIsApplyAll(ApplyAll(reg, t), n, true, |n.suites|);
      ApplyAllAppend(reg, t, s);
      LastEntry(reg, t + s, e);
    } else {
      LastEntry(reg, [], e);
    }
  }

  lemma {:induction false} MaterialiseKidsIsApplyAll(reg: Registry, n: Node, suites: bool, i: nat)
    requires i <= if suites then |n.suites| else |n.tests|
    ensures MaterialiseKids(reg, n, suites, i) == ApplyAll(reg, KidEntries(n, suites, i))
    decreases n, 0, i
  {
    if i > 0 {
      var j, kid, p := i - 1, Kid(n, suites, i), Some(NodeKey(n));
      MaterialiseKidsIsApplyAll(reg, n, suites, j);
      MaterialiseIsApplyAll(MaterialiseKids(reg, n, suites, j), kid, suites, p);
      KidMaterialised(reg, n, suites, i, j);
    }
  }

  /** The recursion over the children, unfolded once: child `i` is materialised after the first `j = i - 1`. */
  lemma MaterialiseKidsStep(reg: Registry, n: Node, suites: bool, i: nat, j: nat)
    requires 0 < i <= if suites then |n.suites| else |n.tests|
    requires j == i - 1
    ensures MaterialiseKids(reg, n, suites, i)
         == Materialise(MaterialiseKids(reg, n, suites, j), Kid(n, suites, i), suites, Some(NodeKey(n)))
  {
  }

  /** The induction step of `MaterialiseKidsIsApplyAll`: child `i` under `n` after the first `j = i - 1`. */
  lemma KidMaterialised(reg: Registry, n: Node, suites: bool, i: nat, j: nat)
    requires 0 < i <= if suites then |n.suites| else |n.tests|
    requires j == i - 1 && MaterialiseKids(reg, n, suites, j) == ApplyAll(reg, KidEntries(n, suites, j))
    requires
      var mid := MaterialiseKids(reg, n, suites, j);
      Materialise(mid, Kid(n, suites, i), suites, Some(NodeKey(n)))
        == ApplyAll(mid, Entries(Kid(n, suites, i), suites, Some(NodeKey(n))))
    ensures MaterialiseKids(reg, n, suites, i) == ApplyAll(reg, KidEntries(n, suites, i))
  {
    KidStepFrom(reg, MaterialiseKids(reg, n, suites, j), n, suites, i, j);
    MaterialiseKidsStep(reg, n, suites, i, j);
  }

  /** `KidStep` with the registry after the first `j` children given by name. */
  lemma KidStepFrom(reg: Registry, mid: Registry, n: Node, suites: bool, i: nat, j: nat)
    requires 0 < i <= if suites then |n.suites| else |n.tests|
    requires j == i - 1 && mid == ApplyAll(reg, KidEntries(n, suites, j))
    ensures ApplyAll(reg, KidEntries(n, suites, i)) == ApplyAll(mid, Entries(Kid(n, suites, i), suites, Some(NodeKey(n))))
  {
    KidStep(reg, n, suites, i);
  }

  /** The invariant depends only on the keys, the order and the parent links. */
  lemma SameShapeValid(a: Registry, b: Registry)
    requires Valid(a)
    requires a.order == b.order && a.parentOf == b.parentOf && a.runnables.Keys == b.runnables.Keys
    ensures Valid(b)
  {
  }

  /** Overwriting a registered record keeps the invariant. */
  lemma ReplaceKeepsValid(reg: Registry, key: string, obj: Obj)
    requires Valid(reg) && key in reg.runnables
    ensures Valid(reg.(runnables := reg.runnables[key := obj]))
  {
  }

  /** Insertion keeps the order faithful. */
  lemma InsertOrder(reg: Registry, key: string, obj: Obj, parent: Option<string>)
    requires OrderMatches(reg)
    ensures OrderMatches(Insert(reg, key, obj, parent))
  {
    var r := Insert(reg, key, obj, parent);
    if key !in reg.order {
      forall i, j | 0 <= i < j < |r.order| ensures r.order[i] != r.order[j] {
        if j == |reg.order| {
          assert reg.order[i] in reg.order;
        }
      }
    }
  }

  /** Registering `key` settles the links still waiting for it. */
  lemma InsertParents(reg: Registry, pending: set<string>, key: string, obj: Obj, parent: Option<string>)
    requires ParentsWithin(reg, pending + {key})
    requires parent.Some? ==> parent.value in reg.runnables || parent.value in pending || parent.value == key
    ensures ParentsWithin(Insert(reg, key, obj, parent), pending)
  {
  }

  /** The writes of a whole subtree keep order and parent links in shape; the subtree's own parent stays pending. */
  lemma {:induction false} EntriesKeepShape(reg: Registry, pending: set<string>, n: Node, asSuite: bool, parent: Option<string>)
    requires OrderMatches(reg) && ParentsWithin(reg, pending)
    requires parent.Some? ==> parent.value in pending
    ensures OrderMatches(ApplyAll(reg, Entries(n, asSuite, parent)))
    ensures ParentsWithin(ApplyAll(reg, Entries(n, asSuite, parent)), pending)
    decreases n, 1, 0
  {
    var key := NodeKey(n);
    var last := [Entry(key, n.props, asSuite, parent)];
    if asSuite {
      var t := KidEntries(n, false, |n.tests|);
      var s := KidEntries(n, true, |n.suites|);
      KidEntriesKeepShape(reg, pending + {key}, n, false, |n.tests|);
      KidEntriesKeepShape(ApplyAll(reg, t), pending + {key}, n, true, |n.suites|);
      ApplyAllAppend(reg, t, s);
      var mid := ApplyAll(reg, t + s);
      assert Entries(n, asSuite, parent) == (t + s) + last;
      ApplyAllAppend(reg, t + s, last);
      assert last[..0] == [];
      InsertOrder(mid, key, SuiteRecord(n.props), parent);
      InsertParents(mid, pending, key, SuiteRecord(n.props), parent);
    } else {
      assert last[..0] == [];
      InsertOrder(reg, key, TestRecord(n.props), parent);
      InsertParents(reg, pending, key, TestRecord(n.props), parent);
    }
  }

  lemma {:induction false} KidEntriesKeepShape(reg: Registry, pending: set<string>, n: Node, suites: bool, i: nat)
    requires i <= if suites then |n.suites| else |n.tests|
    requires OrderMatches(reg) && ParentsWithin(reg, pending)
    requires NodeKey(n) in pending
    ensures OrderMatches(ApplyAll(reg, KidEntries(n, suites, i)))
    ensures ParentsWithin(ApplyAll(reg, KidEntries(n, suites, i)), pending)
    decreases n, 0, i
  {
    if i > 0 {
      var kid := Kid(n, suites, i);
      KidEntriesKeepShape(reg, pending, n, suites, i - 1);
      var mid := ApplyAll(reg, KidEntries(n, suites, i - 1));
      assert OrderMatches(mid) && ParentsWithin(mid, pending);
      EntriesKeepShape(mid, pending, kid, suites, Some(NodeKey(n)));
      KidStep(reg, n, suites, i);
      assert ApplyAll(reg, KidEntries(n, suites, i)) == ApplyAll(mid, Entries(kid, suites, Some(NodeKey(n))));
    }
  }

  /** `setRunnables` starts from an empty registry; materialising the root yields a valid registry. */
  lemma MaterialiseValid(root: Node)
    ensures Valid(ApplyAll(EmptyRegistry, Entries(root, true, None)))
  {
    EntriesKeepShape(EmptyRegistry, {}, root, true, None);
  }
  /** A record typed as a test carries a state that is neither `undefined` nor `null`. */
  predicate StatefulIfTest(o: Obj) {
    Get(o, "type") == Some(VStr("test")) ==> !Nullish(o, "state")
  }

  /** Every test in the registry has a state. */
  ghost predicate TestsHaveState(reg: Registry) {
    forall k :: k in reg.runnables ==> StatefulIfTest(reg.runnables[k])
  }

  lemma {:induction false} ApplyAllKeepsStates(reg: Registry, es: seq<Entry>)
    requires TestsHaveState(reg)
    requires forall i :: 0 <= i < |es| ==> StatefulIfTest(es[i].Record())
    ensures TestsHaveState(ApplyAll(reg, es))
    decreases |es|
  {
    if es != [] {
      ApplyAllKeepsStates(reg, es[..|es| - 1]);
    }
  }

  /** Every object `_createRunnable` writes is either a suite (no `type`) or a test with a state. */
  lemma {:induction false} EntriesStateful(n: Node, asSuite: bool, parent: Option<string>)
    ensures forall i :: 0 <= i < |Entries(n, asSuite, parent)| ==> StatefulIfTest(Entries(n, asSuite, parent)[i].Record())
    decreases n, 1, 0
  {
    if asSuite {
      KidEntriesStateful(n, false, |n.tests|);
      KidEntriesStateful(n, true, |n.suites|);
      SuiteRecordFields(n.props);
    } else {
      TestRecordFields(n.props);
    }
  }

  lemma {:induction false} KidEntriesStateful(n: Node, suites: bool, i: nat)
    requires i <= if suites then |n.suites| else |n.tests|
    ensures forall j :: 0 <= j < |KidEntries(n, suites, i)| ==> StatefulIfTest(KidEntries(n, suites, i)[j].Record())
    decreases n, 0, i
  {
    if i > 0 {
      var kid := Kid(n, suites, i);
      KidEntriesStateful(n, suites, i - 1);
      EntriesStateful(kid, suites, Some(NodeKey(n)));
    }
  }

  /** After `setRunnables`, every registered test has a state: `'skipped'` unless one was declared. */
  lemma MaterialisedTestsHaveState(root: Node)
    ensures TestsHaveState(ApplyAll(EmptyRegistry, Entries(root, true, None)))
  {
    EntriesStateful(root, true, None);
    ApplyAllKeepsStates(EmptyRegistry, Entries(root, true, None));
  }

  /**
   * `e` is a declared runnable of the tree under `n`: `n` itself with its kind
   * and parent, or a runnable declared under one of its tests or suites.
   */
  ghost predicate DeclaredIn(e: Entry, n: Node, asSuite: bool, parent: Option<string>)
    decreases n
  {
    e == Entry(NodeKey(n), n.props, asSuite, parent) ||
    (asSuite &&
      ((exists j :: 0 <= j < |n.tests| && DeclaredIn(e, n.tests[j], false, Some(NodeKey(n)))) ||
       (exists j :: 0 <= j < |n.suites| && DeclaredIn(e, n.suites[j], true, Some(NodeKey(n))))))
  }

  /** The writes of `_createRunnable` are exactly the declared runnables of the tree. */
  lemma {:induction false} EntriesAreDeclared(n: Node, asSuite: bool, parent: Option<string>, e: Entry)
    ensures e in Entries(n, asSuite, parent) <==> DeclaredIn(e, n, asSuite, parent)
    decreases n, 1, 0
  {
    if asSuite {
      KidEntriesAreDeclared(n, false, |n.tests|, e);
      KidEntriesAreDeclared(n, true, |n.suites|, e);
    }
  }

  /** The writes for the first `i` tests (or suites) of `n` are the runnables declared under them. */
  lemma {:induction false} KidEntriesAreDeclared(n: Node, suites: bool, i: nat, e: Entry)
    requires i <= if suites then |n.suites| else |n.tests|
    ensures e in KidEntries(n, suites, i) <==>
      if suites then exists j :: 0 <= j < i && DeclaredIn(e, n.suites[j], true, Some(NodeKey(n)))
      else exists j :: 0 <= j < i && DeclaredIn(e, n.tests[j], false, Some(NodeKey(n)))
    decreases n, 0, i
  {
    if i > 0 {
      KidEntriesAreDeclared(n, suites, i - 1, e);
      EntriesAreDeclared(Kid(n, suites, i), suites, Some(NodeKey(n)), e);
    }
  }

  /** The keys after the writes `es` are the keys before and the keys written. */
  lemma {:induction false} ApplyAllKeys(reg: Registry, es: seq<Entry>, k: string)
    ensures k in ApplyAll(reg, es).runnables <==> k in reg.runnables || exists e :: e in es && e.key == k
    decreases |es|
  {
    if es != [] {
      var front, last := es[..|es| - 1], es[|es| - 1];
      ApplyAllKeys(reg, front, k);
      InsertWrites(ApplyAll(reg, front), last.key, last.Record(), last.parent);
      if e :| e in es && e.key == k {
        if e != last {
          assert e in front by { assert es == front + [last]; }
        }
      }
      if e :| e in front && e.key == k {
        assert e in es by { assert es == front + [last]; }
      }
    }
  }

  /**
   * After `setRunnables`, the registry holds exactly the keys of the declared
   * runnables (reporter.js:326-328).
   */
  lemma RegisteredKeys(root: Node, k: string)
    ensures k in ApplyAll(EmptyRegistry, Entries(root, true, None)).runnables <==>
      exists e :: DeclaredIn(e, root, true, None) && e.key == k
  {
    var es := Entries(root, true, None);
    ApplyAllKeys(EmptyRegistry, es, k);
    forall e | e in es ensures DeclaredIn(e, root, true, None) {
      EntriesAreDeclared(root, true, None, e);
    }
    forall e | DeclaredIn(e, root, true, None) ensures e in es {
      EntriesAreDeclared(root, true, None, e);
    }
  }

  /**
   * When the declared ids are distinct, every declared suite and test is
   * registered under its key, as its own record, linked to its parent's key
   * (reporter.js:303-331).
   */
  lemma RegisteredAsDeclared(root: Node, e: Entry)
    requires DeclaredIn(e, root, true, None)
    requires forall i, j :: 0 <= i < j < |Entries(root, true, None)| ==>
      Entries(root, true, None)[i].key != Entries(root, true, None)[j].key
    ensures var r := ApplyAll(EmptyRegistry, Entries(root, true, None));
      e.key in r.runnables && r.runnables[e.key] == e.Record() &&
      (e.parent.Some? ==> e.key in r.parentOf && r.parentOf[e.key] == e.parent.value) &&
      (e.parent.None? ==> e.key !in r.parentOf)
  {
    var es := Entries(root, true, None);
    EntriesAreDeclared(root, true, None, e);
    var i :| 0 <= i < |es| && es[i] == e;
    LastWriteWins(EmptyRegistry, es, i);
  }

  /** The last write under a key decides its record and its parent link. */
  lemma {:induction false} LastWriteWins(reg: Registry, es: seq<Entry>, i: nat)
    requires i < |es|
    requires forall j :: i < j < |es| ==> es[j].key != es[i].key
    ensures var r := ApplyAll(reg, es);
      es[i].key in r.runnables && r.runnables[es[i].key] == es[i].Record() &&
      (es[i].parent.Some? ==> es[i].key in r.parentOf && r.parentOf[es[i].key] == es[i].parent.value) &&
      (es[i].parent.None? ==> es[i].key !in r.parentOf)
    decreases |es|
  {
    var front, last := es[..|es| - 1], es[|es| - 1];
    InsertWrites(ApplyAll(reg, front), last.key, last.Record(), last.parent);
    if i < |es| - 1 {
      forall j | i < j < |front| ensures front[j].key != front[i].key {
        assert front[j] == es[j];
      }
      LastWriteWins(reg, front, i);
      assert front[i] == es[i];
    }
  }
}
