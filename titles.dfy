/** `getTitlePath` (reporter.js:44-64): a runnable's title path, outermost ancestor first. */
module Titles {
  import opened Wrappers
  import opened Records
  import opened Tree

  /** The marker a browser-level skip appends to a title (reporter.js:54). */
  const BrowserSkip: string := " (skipped due to browser)"

  /** `s.replace(BrowserSkip, '')`: the first occurrence of the marker is removed. */
  function StripSkip(s: string): (r: string)
    ensures |r| <= |s|
    decreases |s|
  {
    if |s| < |BrowserSkip| then s
    else if s[..|BrowserSkip|] == BrowserSkip then s[|BrowserSkip|..]
    else [s[0]] + StripSkip(s[1..])
  }

  predicate OccursAt(s: string, i: nat) {
    i + |BrowserSkip| <= |s| && s[i..i + |BrowserSkip|] == BrowserSkip
  }

  /** A title that does not contain the marker is left as it is. */
  lemma {:induction false} StripSkipNoMarker(s: string)
    requires forall i: nat :: !OccursAt(s, i)
    ensures StripSkip(s) == s
    decreases |s|
  {
    if |s| >= |BrowserSkip| {
      assert !OccursAt(s, 0);
      assert s[..|BrowserSkip|] == s[0..0 + |BrowserSkip|];
      forall i: nat ensures !OccursAt(s[1..], i) {
        assert !OccursAt(s, i + 1);
        if i + |BrowserSkip| <= |s[1..]| {
          assert s[1..][i..i + |BrowserSkip|] == s[i + 1..i + 1 + |BrowserSkip|];
        }
      }
      StripSkipNoMarker(s[1..]);
      assert s == [s[0]] + s[1..];
    }
  }

  /** Away from the marker, `StripSkip` keeps the first character and goes on with the rest. */
  lemma StripSkipStep(s: string)
    requires s != [] && !OccursAt(s, 0)
    ensures StripSkip(s) == [s[0]] + StripSkip(s[1..])
  {
    if |s| >= |BrowserSkip| {
      assert s[..|BrowserSkip|] == s[0..0 + |BrowserSkip|];
    }
  }

  /** An occurrence in the tail is an occurrence one place further on. */
  lemma OccursInTail(s: string, j: nat)
    requires s != []
    ensures OccursAt(s[1..], j) <==> OccursAt(s, j + 1)
  {
    if j + 1 + |BrowserSkip| <= |s| {
      assert s[1..][j..j + |BrowserSkip|] == s[j + 1..j + 1 + |BrowserSkip|];
    }
  }

  /** `replace` with a string pattern removes the first occurrence of the marker and nothing else. */
  lemma {:induction false} StripSkipFirstOccurrence(s: string, i: nat)
    requires OccursAt(s, i) && forall j: nat :: j < i ==> !OccursAt(s, j)
    ensures StripSkip(s) == s[..i] + s[i + |BrowserSkip|..]
    decreases i
  {
    if i == 0 {
      assert s[..|BrowserSkip|] == s[0..0 + |BrowserSkip|];
    } else {
      StripSkipStep(s);
      var t := s[1..];
      OccursInTail(s, i - 1);
      forall j: nat | j < i - 1 ensures !OccursAt(t, j) {
        OccursInTail(s, j);
      }
      StripSkipFirstOccurrence(t, i - 1);
      ConsCut(s, i);
    }
  }

  /** Cutting the marker out of the tail and putting the head back cuts it out of the whole. */
  lemma ConsCut(s: string, i: nat)
    requires 0 < i && i + |BrowserSkip| <= |s|
    ensures [s[0]] + (s[1..][..i - 1] + s[1..][i - 1 + |BrowserSkip|..]) == s[..i] + s[i + |BrowserSkip|..]
  {
    assert s[..i] == [s[0]] + s[1..][..i - 1];
    assert s[i + |BrowserSkip|..] == s[1..][i - 1 + |BrowserSkip|..];
  }

  /** A marker that first occurs at the very end is cut off. */
  lemma StripSkipTrailing(s: string, n: nat)
    requires n + |BrowserSkip| == |s| && OccursAt(s, n) && forall j: nat :: j < n ==> !OccursAt(s, j)
    ensures StripSkip(s) == s[..n]
  {
    StripSkipFirstOccurrence(s, n);
    assert s[n + |BrowserSkip|..] == [];
  }

  /** An appended marker occurs right after the title. */
  lemma MarkerAppended(t: string)
    ensures OccursAt(t + BrowserSkip, |t|) && (t + BrowserSkip)[..|t|] == t
  {
    var s := t + BrowserSkip;
    assert s[|t|..|t| + |BrowserSkip|] == BrowserSkip;
  }

  /** The marker appended to a title with no earlier marker is removed, restoring the title. */
  lemma StripSkipSuffix(t: string)
    requires forall i: nat :: i < |t| ==> !OccursAt(t + BrowserSkip, i)
    ensures StripSkip(t + BrowserSkip) == t
  {
    MarkerAppended(t);
    StripSkipTrailing(t + BrowserSkip, |t|);
  }

  /** The title that `getTitlePath` reads: `originalTitle` when truthy, else `title`. */
  function EffectiveTitle(o: Obj): Option<Value> {
    if Truthy(o, "originalTitle") then Some(o["originalTitle"]) else Get(o, "title")
  }

  /** The segment a runnable adds to the path: its stripped title, or nothing when the title is falsy. */
  function Segment(o: Obj): (r: seq<string>)
    ensures |r| <= 1
    ensures (EffectiveTitle(o).Some? && EffectiveTitle(o).value.VStr? && EffectiveTitle(o).value.s != "") ==>
      r == [StripSkip(EffectiveTitle(o).value.s)]
    ensures !(EffectiveTitle(o).Some? && EffectiveTitle(o).value.VStr? && EffectiveTitle(o).value.s != "") ==> r == []
  {
    match EffectiveTitle(o)
    case Some(VStr(s)) => if s != "" then [StripSkip(s)] else []
    case _ => []
  }

  /** `runnable.title = runnable.originalTitle` when the original title is truthy (reporter.js:47-49). */
  function Restore(o: Obj): (r: Obj)
    ensures Segment(r) == Segment(o)
    ensures r.Keys == o.Keys + (if Truthy(o, "originalTitle") then {"title"} else {})
    ensures Truthy(o, "originalTitle") ==> r["title"] == o["originalTitle"]
    ensures forall k :: k in o && k != "title" ==> r[k] == o[k]
  {
    if Truthy(o, "originalTitle") then o["title" := o["originalTitle"]] else o
  }

  /** The registry after restoring the title of the record under `key` alone. */
  function RestoreAt(reg: Registry, key: string): (r: Registry)
    requires key in reg.runnables
    ensures r.order == reg.order && r.parentOf == reg.parentOf && r.runnables.Keys == reg.runnables.Keys
  {
    reg.(runnables := reg.runnables[key := Restore(reg.runnables[key])])
  }

  /** The walk with the `titles` accumulator; at most `fuel` parent links are followed. */
  function PathAcc(reg: Registry, key: string, fuel: nat, titles: seq<string>): seq<string>
    requires key in reg.runnables && ParentsWithin(reg, {})
    decreases fuel
  {
    var acc := Segment(reg.runnables[key]) + titles;
    if fuel > 0 && key in reg.parentOf then PathAcc(reg, reg.parentOf[key], fuel - 1, acc) else acc
  }

  /** The registry after the walk from `key` has restored every original title on its way. */
  function RestoreChain(reg: Registry, key: string, fuel: nat): Registry
    requires key in reg.runnables && ParentsWithin(reg, {})
    decreases fuel
  {
    var r := RestoreAt(reg, key);
    if fuel > 0 && key in reg.parentOf then RestoreChain(r, reg.parentOf[key], fuel - 1) else r
  }

  /** The title path of a registered runnable; a registry of n records has chains of fewer than n links. */
  function TitlePath(reg: Registry, key: string): seq<string>
    requires key in reg.runnables && ParentsWithin(reg, {})
  {
    PathAcc(reg, key, |reg.order|, [])
  }

  /** One step of the walk that goes on: restore the title at `key`, then continue from its parent with the segment collected. */
  lemma WalkOn(reg: Registry, key: string, fuel: nat, titles: seq<string>)
    requires key in reg.runnables && ParentsWithin(reg, {})
    requires fuel > 0 && key in reg.parentOf
    ensures ParentsWithin(RestoreAt(reg, key), {}) && reg.parentOf[key] in reg.runnables
    ensures PathAcc(reg, key, fuel, titles)
         == PathAcc(RestoreAt(reg, key), reg.parentOf[key], fuel - 1, Segment(reg.runnables[key]) + titles)
    ensures RestoreChain(reg, key, fuel) == RestoreChain(RestoreAt(reg, key), reg.parentOf[key], fuel - 1)
  {
    var r := RestoreAt(reg, key);
    assert SameSegments(reg, r);
    PathAccSameSegments(reg, r, reg.parentOf[key], fuel - 1, Segment(reg.runnables[key]) + titles);
  }

  /** The last step of the walk: out of fuel or at a runnable without a parent. */
  lemma WalkEnd(reg: Registry, key: string, fuel: nat, titles: seq<string>)
    requires key in reg.runnables && ParentsWithin(reg, {})
    requires !(fuel > 0 && key in reg.parentOf)
    ensures PathAcc(reg, key, fuel, titles) == Segment(reg.runnables[key]) + titles
    ensures RestoreChain(reg, key, fuel) == RestoreAt(reg, key)
  {
  }

  /** Two registries that differ at most in titles with the same segments. */
  ghost predicate SameSegments(a: Registry, b: Registry) {
    a.order == b.order && a.parentOf == b.parentOf && a.runnables.Keys == b.runnables.Keys &&
    forall k :: k in a.runnables ==> Segment(a.runnables[k]) == Segment(b.runnables[k])
  }

  /** The path depends only on the segments and the parent links. */
  lemma {:induction false} PathAccSameSegments(a: Registry, b: Registry, key: string, fuel: nat, titles: seq<string>)
    requires key in a.runnables && ParentsWithin(a, {}) && SameSegments(a, b)
    ensures key in b.runnables && ParentsWithin(b, {})
    ensures PathAcc(a, key, fuel, titles) == PathAcc(b, key, fuel, titles)
    decreases fuel
  {
    var acc := Segment(a.runnables[key]) + titles;
    if fuel > 0 && key in a.parentOf {
      PathAccSameSegments(a, b, a.parentOf[key], fuel - 1, acc);
    }
  }

  /** Restoring titles along a chain changes no segment, no key and no parent link. */
  lemma {:induction false} RestoreChainSameSegments(reg: Registry, key: string, fuel: nat)
    requires key in reg.runnables && ParentsWithin(reg, {})
    ensures SameSegments(reg, RestoreChain(reg, key, fuel))
    ensures ParentsWithin(RestoreChain(reg, key, fuel), {})
    decreases fuel
  {
    var r := RestoreAt(reg, key);
    assert SameSegments(reg, r);
    if fuel > 0 && key in reg.parentOf {
      RestoreChainSameSegments(r, reg.parentOf[key], fuel - 1);
    }
  }

  /** Titles already collected stay at the end: the path is built outermost ancestor first. */
  lemma {:induction false} PathAccPrepends(reg: Registry, key: string, fuel: nat, titles: seq<string>)
    requires key in reg.runnables && ParentsWithin(reg, {})
    ensures PathAcc(reg, key, fuel, titles) == PathAcc(reg, key, fuel, []) + titles
    decreases fuel
  {
    var o := reg.runnables[key];
    if fuel > 0 && key in reg.parentOf {
      var p := reg.parentOf[key];
      PathAccPrepends(reg, p, fuel - 1, Segment(o) + titles);
      PathAccPrepends(reg, p, fuel - 1, Segment(o) + []);
      assert Segment(o) + titles == (Segment(o) + []) + titles;
    } else {
      assert Segment(o) + [] == Segment(o);
    }
  }

  /** A runnable's path is its parent's path followed by its own segment. */
  lemma ParentThenSelf(reg: Registry, key: string, fuel: nat)
    requires key in reg.runnables && ParentsWithin(reg, {})
    requires key in reg.parentOf && fuel > 0
    ensures PathAcc(reg, key, fuel, []) == PathAcc(reg, reg.parentOf[key], fuel - 1, []) + Segment(reg.runnables[key])
  {
    PathAccPrepends(reg, reg.parentOf[key], fuel - 1, Segment(reg.runnables[key]) + []);
    assert Segment(reg.runnables[key]) + [] == Segment(reg.runnables[key]);
  }

  /** A parentless runnable with a falsy title, like the default root `{title: ''}`, has the empty path. */
  lemma UntitledRootHasEmptyPath(reg: Registry, key: string, fuel: nat)
    requires key in reg.runnables && ParentsWithin(reg, {})
    requires key !in reg.parentOf && !Truthy(reg.runnables[key], "originalTitle")
    requires !Truthy(reg.runnables[key], "title")
    ensures PathAcc(reg, key, fuel, []) == []
  {
  }

  /** A second walk after the first has restored the titles yields the same path. */
  lemma TitlePathIdempotent(reg: Registry, key: string)
    requires key in reg.runnables && ParentsWithin(reg, {})
    ensures key in RestoreChain(reg, key, |reg.order|).runnables
    ensures ParentsWithin(RestoreChain(reg, key, |reg.order|), {})
    ensures TitlePath(RestoreChain(reg, key, |reg.order|), key) == TitlePath(reg, key)
  {
    RestoreChainSameSegments(reg, key, |reg.order|);
    PathAccSameSegments(reg, RestoreChain(reg, key, |reg.order|), key, |reg.order|, []);
  }
  /** `b` is `a` with some original titles restored: only `title` properties differ, and no segment does. */
  ghost predicate TitlesRestored(a: Registry, b: Registry) {
    SameSegments(a, b) &&
    forall k :: k in a.runnables ==> a.runnables[k] - {"title"} == b.runnables[k] - {"title"}
  }

  lemma {:induction false} RestoreChainRestores(reg: Registry, key: string, fuel: nat)
    requires key in reg.runnables && ParentsWithin(reg, {})
    ensures TitlesRestored(reg, RestoreChain(reg, key, fuel))
    ensures ParentsWithin(RestoreChain(reg, key, fuel), {})
    decreases fuel
  {
    var o := reg.runnables[key];
    var r := RestoreAt(reg, key);
    assert Restore(o) - {"title"} == o - {"title"};
    assert TitlesRestored(reg, r);
    if fuel > 0 && key in reg.parentOf {
      RestoreChainRestores(r, reg.parentOf[key], fuel - 1);
    }
  }

  lemma TitlesRestoredTransitive(a: Registry, b: Registry, c: Registry)
    requires TitlesRestored(a, b) && TitlesRestored(b, c)
    ensures TitlesRestored(a, c)
  {
    forall k | k in a.runnables ensures a.runnables[k] - {"title"} == c.runnables[k] - {"title"} {
      assert a.runnables[k] - {"title"} == b.runnables[k] - {"title"};
    }
  }
}
