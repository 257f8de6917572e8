/**
 * What the spec file registers with the test runner when it is loaded: the
 * suite-level hook and check, then per viewport a describe block with its
 * viewport hook, its list check and, in a nested describe, one test per
 * component.
 */
module Registration {
  import opened Text
  import opened VisualTestConfig
  import opened ComponentCase

  /**
   * A describe title, kept as the template literal and its arguments;
   * TitleText renders it.
   */
  datatype Title =
    | ViewportTitle(vp: Viewport)
    | PlainTitle(text: string)

  /**
   * A describe block: `id` tells apart the runner's describe objects (the
   * number of describes opened before it), `title` is what it is called.
   */
  datatype Scope = Scope(id: nat, title: Title)

  datatype HookKind = BeforeAll | BeforeEach

  datatype HookAction = FetchManifest | ApplyViewport(width: int, height: int)

  datatype TestBody =
    | ExpectComponents
    | ExpectListLoaded
    | Capture(viewport: Viewport, component: Component)

  datatype Registration =
    | Hook(kind: HookKind, scope: seq<Scope>, action: HookAction)
    | Test(scope: seq<Scope>, title: string, body: TestBody)

  const TopTitle := "Should have components to test"
  const ListLoadedTitle := "Component list loaded"
  const InnerTitle := PlainTitle("Individual component tests")

  /** The rendered title; a viewport block's is `Viewport: ${name} (${width}x${height})`. */
  function TitleText(t: Title): (s: string)
    ensures t.ViewportTitle? ==>
      && |s| >= 16 + |t.vp.name|
      && s[..10] == "Viewport: " && s[10..10 + |t.vp.name|] == t.vp.name
  {
    match t
    case ViewportTitle(vp) => "Viewport: " + vp.name + Size(vp)
    case PlainTitle(text) => text
  }

  /** The ` (${width}x${height})` tail of a viewport title. */
  function Size(vp: Viewport): (s: string)
    ensures |s| >= 6
  {
    " (" + IntText(vp.width) + "x" + IntText(vp.height) + ")"
  }

  /** The character right after `Viewport: ` is the first of the viewport's name. */
  lemma ViewportTitleAt(vp: Viewport)
    requires |vp.name| > 0
    ensures |TitleText(ViewportTitle(vp))| > 10 && TitleText(ViewportTitle(vp))[10] == vp.name[0]
  {
    var prefix := "Viewport: " + vp.name;
    assert prefix[10] == vp.name[0];
    assert TitleText(ViewportTitle(vp)) == prefix + Size(vp);
  }

  /** Viewports whose names start differently get different describe titles. */
  lemma ViewportTitlesDiffer(a: Viewport, b: Viewport)
    requires |a.name| > 0 && |b.name| > 0 && a.name[0] != b.name[0]
    ensures TitleText(ViewportTitle(a)) != TitleText(ViewportTitle(b))
  {
    ViewportTitleAt(a);
    ViewportTitleAt(b);
  }

  /** `Component: ${component.name}` */
  function ComponentTitle(c: Component): (t: string)
    ensures |t| == 11 + |c.name| && t[..11] == "Component: " && t[11..] == c.name
  {
    "Component: " + c.name
  }

  /** The scope of the i-th viewport's describe, when `base` describes came before. */
  function OuterScope(base: nat, i: nat, vp: Viewport): seq<Scope> {
    [Scope(base + 2 * i, ViewportTitle(vp))]
  }

  function InnerScope(base: nat, i: nat, vp: Viewport): seq<Scope> {
    OuterScope(base, i, vp) + [Scope(base + 2 * i + 1, InnerTitle)]
  }

  function ComponentTest(inner: seq<Scope>, vp: Viewport, c: Component): Registration {
    Test(inner, ComponentTitle(c), Capture(vp, c))
  }

  /** The `for (const component of components)` loop: one test per component. */
  function ComponentTests(inner: seq<Scope>, vp: Viewport, cs: seq<Component>): (ts: seq<Registration>)
    ensures |ts| == |cs|
    ensures forall k :: 0 <= k < |ts| ==> ts[k].Test? && ts[k].scope == inner
  {
    if cs == [] then []
    else ComponentTests(inner, vp, cs[..|cs| - 1]) + [ComponentTest(inner, vp, cs[|cs| - 1])]
  }

  function ViewportBlock(base: nat, i: nat, vp: Viewport, cs: seq<Component>): (b: seq<Registration>)
    ensures |b| == 2 + |cs|
    ensures b[0].Hook? && b[0].kind == BeforeEach && b[0].scope == OuterScope(base, i, vp)
    ensures forall k :: 1 <= k < |b| ==> b[k].Test?
  {
    [ Hook(BeforeEach, OuterScope(base, i, vp), ApplyViewport(vp.width, vp.height)),
      Test(OuterScope(base, i, vp), ListLoadedTitle, ExpectListLoaded) ]
    + ComponentTests(InnerScope(base, i, vp), vp, cs)
  }

  /** The `for (const viewport of config.viewports)` loop. */
  function ViewportBlocks(base: nat, vps: seq<Viewport>, cs: seq<Component>): (bs: seq<Registration>)
    ensures |bs| == Times(|vps|, 2 + |cs|)
    ensures forall k :: 0 <= k < |bs| && bs[k].Hook? ==> bs[k].kind == BeforeEach
  {
    if vps == [] then []
    else
      var n := |vps| - 1;
      ViewportBlocks(base, vps[..n], cs) + ViewportBlock(base, n, vps[n], cs)
  }

  lemma BlocksSnoc(base: nat, vps: seq<Viewport>, cs: seq<Component>, i: nat)
    requires i < |vps|
    ensures ViewportBlocks(base, vps[..i + 1], cs) == ViewportBlocks(base, vps[..i], cs) + ViewportBlock(base, i, vps[i], cs)
  {
    assert vps[..i + 1][..i] == vps[..i];
  }

  const Preamble := [Hook(BeforeAll, [], FetchManifest), Test([], TopTitle, ExpectComponents)]

  /** Everything the file registers, given the component list the loop sees. */
  function Registrations(base: nat, vps: seq<Viewport>, cs: seq<Component>): (regs: seq<Registration>)
    ensures |regs| == 2 + Times(|vps|, 2 + |cs|)
    ensures regs[0].Hook? && regs[0].kind == BeforeAll && regs[0].scope == []
    ensures forall k :: 1 <= k < |regs| && regs[k].Hook? ==> regs[k].kind == BeforeEach
  {
    Preamble + ViewportBlocks(base, vps, cs)
  }

  /** The tests among the registrations, in registration order. */
  function Tests(regs: seq<Registration>): (ts: seq<Registration>)
    ensures forall k :: 0 <= k < |ts| ==> ts[k].Test?
  {
    if regs == [] then []
    else
      var n := |regs| - 1;
      Tests(regs[..n]) + (if regs[n].Test? then [regs[n]] else [])
  }

  lemma {:induction false} TestsAppend(a: seq<Registration>, b: seq<Registration>)
    ensures Tests(a + b) == Tests(a) + Tests(b)
    decreases |b|
  {
    if b != [] {
      var n := |b| - 1;
      assert (a + b)[..|a + b| - 1] == a + b[..n];
      assert (a + b)[|a + b| - 1] == b[n];
      TestsAppend(a, b[..n]);
    } else {
      assert a + b == a;
    }
  }

  /** The component tests of one block: one per component, in list order. */
  lemma {:induction false} ComponentTestsSpec(inner: seq<Scope>, vp: Viewport, cs: seq<Component>)
    ensures |ComponentTests(inner, vp, cs)| == |cs|
    ensures Tests(ComponentTests(inner, vp, cs)) == ComponentTests(inner, vp, cs)
    ensures forall j :: 0 <= j < |cs| ==> ComponentTests(inner, vp, cs)[j] == ComponentTest(inner, vp, cs[j])
  {
    if cs != [] {
      var n := |cs| - 1;
      var front := ComponentTests(inner, vp, cs[..n]);
      var last := ComponentTest(inner, vp, cs[n]);
      assert ComponentTests(inner, vp, cs) == front + [last];
      ComponentTestsSpec(inner, vp, cs[..n]);
      TestsAppend(front, [last]);
      assert Tests([last]) == [last] by {
        assert [last][..0] == [];
      }
      forall j | 0 <= j < |cs|
        ensures ComponentTests(inner, vp, cs)[j] == ComponentTest(inner, vp, cs[j])
      {
        if j < n {
          assert cs[..n][j] == cs[j];
        }
      }
    }
  }

  /** The tests of the i-th block: the list check, then the component tests. */
  function BlockTests(base: nat, i: nat, vp: Viewport, cs: seq<Component>): seq<Registration> {
    [Test(OuterScope(base, i, vp), ListLoadedTitle, ExpectListLoaded)]
    + ComponentTests(InnerScope(base, i, vp), vp, cs)
  }

  lemma BlockTestsSpec(base: nat, i: nat, vp: Viewport, cs: seq<Component>)
    ensures Tests(ViewportBlock(base, i, vp, cs)) == BlockTests(base, i, vp, cs)
    ensures |BlockTests(base, i, vp, cs)| == 1 + |cs|
  {
    var hook := Hook(BeforeEach, OuterScope(base, i, vp), ApplyViewport(vp.width, vp.height));
    var list := Test(OuterScope(base, i, vp), ListLoadedTitle, ExpectListLoaded);
    var rest := ComponentTests(InnerScope(base, i, vp), vp, cs);
    ComponentTestsSpec(InnerScope(base, i, vp), vp, cs);
    assert ViewportBlock(base, i, vp, cs) == [hook, list] + rest;
    TestsAppend([hook, list], rest);
    TestsOfPair(hook, list);
  }

  lemma TestsOfPair(h: Registration, t: Registration)
    requires h.Hook? && t.Test?
    ensures Tests([h, t]) == [t]
  {
    assert [h][..0] == [];
    assert Tests([h]) == [];
    assert [h, t][..1] == [h];
    assert Tests([h, t]) == Tests([h]) + [t];
  }

  /** i * k, by repeated addition, so that the proofs below stay linear. */
  function Times(i: nat, k: nat): nat {
    if i == 0 then 0 else Times(i - 1, k) + k
  }

  lemma {:induction false} TimesIsProduct(i: nat, k: nat)
    ensures Times(i, k) == i * k
  {
    if i > 0 {
      TimesIsProduct(i - 1, k);
    }
  }

  lemma {:induction false} TimesOne(i: nat)
    ensures Times(i, 1) == i
  {
    if i > 0 {
      TimesOne(i - 1);
    }
  }

  lemma {:induction false} TimesMono(i: nat, n: nat, k: nat)
    requires i <= n
    ensures Times(i, k) <= Times(n, k)
    decreases n
  {
    if i < n {
      TimesMono(i, n - 1, k);
    }
  }

  /** The viewport loop registers |vps| * (1 + |cs|) tests. */
  lemma {:induction false} BlocksTestCount(base: nat, vps: seq<Viewport>, cs: seq<Component>)
    ensures |Tests(ViewportBlocks(base, vps, cs))| == Times(|vps|, 1 + |cs|)
  {
    if vps != [] {
      var n := |vps| - 1;
      var front := ViewportBlocks(base, vps[..n], cs);
      var block := ViewportBlock(base, n, vps[n], cs);
      assert ViewportBlocks(base, vps, cs) == front + block;
      BlocksTestCount(base, vps[..n], cs);
      TestsAppend(front, block);
      BlockTestsSpec(base, n, vps[n], cs);
    }
  }

  lemma SliceOfAppend<T>(a: seq<T>, b: seq<T>, lo: nat, hi: nat)
    requires lo <= hi
    ensures hi <= |a| ==> (a + b)[lo..hi] == a[lo..hi]
    ensures lo == |a| && hi == |a| + |b| ==> (a + b)[lo..hi] == b
  {
  }

  /** A solver hint: states associativity of `+` for one triple, so that a proof can invoke it by name. */
  lemma AppendAssoc<T>(a: seq<T>, b: seq<T>, c: seq<T>)
    ensures (a + b) + c == a + (b + c)
  {
  }

  lemma SliceOfCons<T>(t: seq<T>, x: T, s: seq<T>, lo: nat, hi: nat)
    requires t == [x] + s && lo <= hi <= |s|
    ensures 1 + hi <= |t| && t[1 + lo..1 + hi] == s[lo..hi]
  {
  }

  lemma IndexInSlice<T>(s: seq<T>, lo: nat, hi: nat, j: nat)
    requires lo <= hi <= |s| && j < hi - lo
    ensures s[lo..hi][j] == s[lo + j]
  {
  }

  lemma IndexAfterHead<T>(x: T, s: seq<T>, j: nat)
    requires j < |s|
    ensures ([x] + s)[1 + j] == s[j]
  {
  }

  lemma HeadOfCons<T>(x: T, s: seq<T>)
    ensures |[x] + s| == 1 + |s| && ([x] + s)[0] == x
  {
  }

  /** Block after block: the i-th run of 1 + |cs| tests is the i-th viewport's block. */
  lemma {:induction false} BlocksTestsAt(base: nat, vps: seq<Viewport>, cs: seq<Component>, i: nat)
    requires i < |vps|
    ensures Times(i + 1, 1 + |cs|) <= |Tests(ViewportBlocks(base, vps, cs))|
    ensures Tests(ViewportBlocks(base, vps, cs))[Times(i, 1 + |cs|)..Times(i + 1, 1 + |cs|)]
         == BlockTests(base, i, vps[i], cs)
  {
    var n := |vps| - 1;
    var k := 1 + |cs|;
    var lo, hi := Times(i, k), Times(i + 1, k);
    var front := Tests(ViewportBlocks(base, vps[..n], cs));
    var back := BlockTests(base, n, vps[n], cs);
    var all := Tests(ViewportBlocks(base, vps, cs));
    var want := BlockTests(base, i, vps[i], cs);
    BlocksTestCount(base, vps[..n], cs);
    TestsAppend(ViewportBlocks(base, vps[..n], cs), ViewportBlock(base, n, vps[n], cs));
    BlockTestsSpec(base, n, vps[n], cs);
    assert all == front + back;
    assert |front| == Times(n, k) && |back| == k && hi == lo + k;
    if i < n {
      BlocksTestsAt(base, vps[..n], cs, i);
      assert vps[..n][i] == vps[i];
      TimesMono(i + 1, n, k);
      SliceOfAppend(front, back, lo, hi);
      assert hi <= |all| && all[lo..hi] == want;
    } else {
      assert i == n && lo == |front| && hi == |front| + |back|;
      assert want == back;
      SliceOfAppend(front, back, lo, hi);
    }
  }

  lemma PreambleTests()
    ensures Tests(Preamble) == [Test([], TopTitle, ExpectComponents)]
  {
    TestsOfPair(Hook(BeforeAll, [], FetchManifest), Test([], TopTitle, ExpectComponents));
  }

  lemma PreambleHooks(scope: seq<Scope>)
    ensures BeforeEachFor(Preamble, scope) == []
  {
    BeforeEachOfPair(Hook(BeforeAll, [], FetchManifest), Test([], TopTitle, ExpectComponents), scope);
  }

  /** The suite check comes first, then the tests of the viewport blocks. */
  lemma RegistrationsTests(base: nat, vps: seq<Viewport>, cs: seq<Component>)
    ensures Tests(Registrations(base, vps, cs))
         == [Test([], TopTitle, ExpectComponents)] + Tests(ViewportBlocks(base, vps, cs))
  {
    TestsAppend(Preamble, ViewportBlocks(base, vps, cs));
    PreambleTests();
  }

  /** Per project, the file registers 1 + |viewports| * (1 + |components|) tests. */
  lemma TestCount(base: nat, vps: seq<Viewport>, cs: seq<Component>)
    ensures |Tests(Registrations(base, vps, cs))| == 1 + |vps| * (1 + |cs|)
    ensures Tests(Registrations(base, vps, cs))[0] == Test([], TopTitle, ExpectComponents)
  {
    RegistrationsTests(base, vps, cs);
    BlocksTestCount(base, vps, cs);
    TimesIsProduct(|vps|, 1 + |cs|);
  }

  /** The i-th block's tests sit right after the suite check and the blocks before it. */
  lemma BlockInRegistrations(base: nat, vps: seq<Viewport>, cs: seq<Component>, i: nat)
    requires i < |vps|
    ensures 1 + Times(i + 1, 1 + |cs|) <= |Tests(Registrations(base, vps, cs))|
    ensures Tests(Registrations(base, vps, cs))[1 + Times(i, 1 + |cs|)..1 + Times(i + 1, 1 + |cs|)]
         == BlockTests(base, i, vps[i], cs)
  {
    var k := 1 + |cs|;
    var ts := Tests(Registrations(base, vps, cs));
    var blocks := Tests(ViewportBlocks(base, vps, cs));
    RegistrationsTests(base, vps, cs);
    BlocksTestsAt(base, vps, cs, i);
    SliceOfCons(ts, Test([], TopTitle, ExpectComponents), blocks, Times(i, k), Times(i + 1, k));
  }

  /**
   * The capture tests of viewport i (in configuration order): one per
   * component, in list order, titled after the component, inside the
   * viewport's nested describe, right after the viewport's list check.
   */
  lemma TestLayout(base: nat, vps: seq<Viewport>, cs: seq<Component>, i: nat, j: nat)
    requires i < |vps| && j < |cs|
    ensures var ts := Tests(Registrations(base, vps, cs));
      && 1 + Times(i, 1 + |cs|) + 1 + j < |ts|
      && ts[1 + Times(i, 1 + |cs|) + 1 + j] ==
           Test(InnerScope(base, i, vps[i]), "Component: " + cs[j].name, Capture(vps[i], cs[j]))
  {
    BlockInRegistrations(base, vps, cs, i);
    var inner := InnerScope(base, i, vps[i]);
    var rest := ComponentTests(inner, vps[i], cs);
    ComponentTestsSpec(inner, vps[i], cs);
    var ts := Tests(Registrations(base, vps, cs));
    var start := 1 + Times(i, 1 + |cs|);
    var list := Test(OuterScope(base, i, vps[i]), ListLoadedTitle, ExpectListLoaded);
    assert BlockTests(base, i, vps[i], cs) == [list] + rest;
    assert rest[j] == ComponentTest(inner, vps[i], cs[j]);
    IndexAfterHead(list, rest, j);
    IndexInSlice(ts, start, 1 + Times(i + 1, 1 + |cs|), 1 + j);
    assert ts[start + 1 + j] == ComponentTest(inner, vps[i], cs[j]);
  }

  lemma ListLayout(base: nat, vps: seq<Viewport>, cs: seq<Component>, i: nat)
    requires i < |vps|
    ensures var ts := Tests(Registrations(base, vps, cs));
      && 1 + Times(i, 1 + |cs|) < |ts|
      && ts[1 + Times(i, 1 + |cs|)] == Test(OuterScope(base, i, vps[i]), ListLoadedTitle, ExpectListLoaded)
  {
    BlockInRegistrations(base, vps, cs, i);
    var ts := Tests(Registrations(base, vps, cs));
    var start := 1 + Times(i, 1 + |cs|);
    var list := Test(OuterScope(base, i, vps[i]), ListLoadedTitle, ExpectListLoaded);
    var rest := ComponentTests(InnerScope(base, i, vps[i]), vps[i], cs);
    assert BlockTests(base, i, vps[i], cs) == [list] + rest;
    HeadOfCons(list, rest);
    IndexInSlice(ts, start, 1 + Times(i + 1, 1 + |cs|), 0);
    assert ts[start] == list;
  }

  /**
   * With the empty list the loop sees at load time, each viewport block holds
   * only its list check: no capture test is registered at all.
   */
  lemma EmptyListRegistersNoCaptures(base: nat, vps: seq<Viewport>)
    ensures var ts := Tests(Registrations(base, vps, []));
      && |ts| == 1 + |vps|
      && ts[0] == Test([], TopTitle, ExpectComponents)
      && (forall k :: 1 <= k < |ts| ==>
            ts[k] == Test(OuterScope(base, k - 1, vps[k - 1]), ListLoadedTitle, ExpectListLoaded))
      && forall k :: 0 <= k < |ts| ==> !ts[k].body.Capture?
  {
    var ts := Tests(Registrations(base, vps, []));
    EmptyListCount(base, vps);
    forall k | 1 <= k < |ts|
      ensures ts[k] == Test(OuterScope(base, k - 1, vps[k - 1]), ListLoadedTitle, ExpectListLoaded)
    {
      EmptyListCheckAt(base, vps, [], k);
    }
  }

  lemma EmptyListCount(base: nat, vps: seq<Viewport>)
    ensures var ts := Tests(Registrations(base, vps, []));
      && |ts| == 1 + |vps| && ts[0] == Test([], TopTitle, ExpectComponents)
  {
    var blocks := Tests(ViewportBlocks(base, vps, []));
    BlocksTestCount(base, vps, []);
    TimesOne(|vps|);
    assert |blocks| == |vps|;
    RegistrationsTests(base, vps, []);
    HeadOfCons(Test([], TopTitle, ExpectComponents), blocks);
  }

  lemma EmptyListCheckAt(base: nat, vps: seq<Viewport>, cs: seq<Component>, k: nat)
    requires |cs| == 0 && 1 <= k <= |vps|
    ensures var ts := Tests(Registrations(base, vps, cs));
      && k < |ts| && ts[k] == Test(OuterScope(base, k - 1, vps[k - 1]), ListLoadedTitle, ExpectListLoaded)
  {
    var ts := Tests(Registrations(base, vps, cs));
    ListLayout(base, vps, cs, k - 1);
    TimesOne(k - 1);
    SameIndex(ts, 1 + Times(k - 1, 1 + |cs|), k);
  }

  /**
   * A solver hint with no content of its own: it turns an equality of two
   * position expressions into an equality of the elements at them.
   */
  lemma SameIndex<T>(s: seq<T>, i: int, j: int)
    requires i == j && 0 <= i < |s|
    ensures j < |s| && s[j] == s[i]
  {
  }

  predicate IsPrefix(p: seq<Scope>, s: seq<Scope>) {
    |p| <= |s| && s[..|p|] == p
  }

  /**
   * The actions of the `beforeEach` hooks that enclose a test in `scope`, in
   * registration order (this file has at most one per test).
   */
  function BeforeEachFor(regs: seq<Registration>, scope: seq<Scope>): (hs: seq<HookAction>)
    ensures |hs| <= |regs|
    ensures (forall k :: 0 <= k < |regs| ==> regs[k].Test?) ==> hs == []
  {
    if regs == [] then []
    else
      var n := |regs| - 1;
      var r := regs[n];
      BeforeEachFor(regs[..n], scope)
      + (if r.Hook? && r.kind == BeforeEach && IsPrefix(r.scope, scope) then [r.action] else [])
  }

  lemma {:induction false} BeforeEachAppend(a: seq<Registration>, b: seq<Registration>, scope: seq<Scope>)
    ensures BeforeEachFor(a + b, scope) == BeforeEachFor(a, scope) + BeforeEachFor(b, scope)
    decreases |b|
  {
    if b != [] {
      var n := |b| - 1;
      assert (a + b)[..|a + b| - 1] == a + b[..n];
      assert (a + b)[|a + b| - 1] == b[n];
      BeforeEachAppend(a, b[..n], scope);
    } else {
      assert a + b == a;
    }
  }

  lemma {:induction false} NoHooksAmongTests(inner: seq<Scope>, vp: Viewport, cs: seq<Component>, scope: seq<Scope>)
    ensures BeforeEachFor(ComponentTests(inner, vp, cs), scope) == []
  {
    if cs != [] {
      NoHooksAmongTests(inner, vp, cs[..|cs| - 1], scope);
    }
  }

  /** The hook of block k applies to a scope inside the describe with id base + 2i exactly when k == i. */
  lemma {:induction false} BlockHooks(base: nat, k: nat, vp: Viewport, cs: seq<Component>, i: nat, scope: seq<Scope>)
    requires |scope| >= 1 && scope[0].id == base + 2 * i
    ensures BeforeEachFor(ViewportBlock(base, k, vp, cs), scope) ==
      if scope[0] == Scope(base + 2 * k, ViewportTitle(vp)) then [ApplyViewport(vp.width, vp.height)] else []
  {
    var hook := Hook(BeforeEach, OuterScope(base, k, vp), ApplyViewport(vp.width, vp.height));
    var list := Test(OuterScope(base, k, vp), ListLoadedTitle, ExpectListLoaded);
    var rest := ComponentTests(InnerScope(base, k, vp), vp, cs);
    assert ViewportBlock(base, k, vp, cs) == [hook, list] + rest;
    BeforeEachAppend([hook, list], rest, scope);
    NoHooksAmongTests(InnerScope(base, k, vp), vp, cs, scope);
    BeforeEachOfPair(hook, list, scope);
    PrefixOfOne(Scope(base + 2 * k, ViewportTitle(vp)), scope);
  }

  lemma PrefixOfOne(x: Scope, scope: seq<Scope>)
    requires |scope| >= 1
    ensures IsPrefix([x], scope) <==> scope[0] == x
  {
    if scope[0] == x {
      assert scope[..1] == [x];
    }
  }

  lemma BeforeEachOfPair(h: Registration, t: Registration, scope: seq<Scope>)
    requires h.Hook? && t.Test?
    ensures BeforeEachFor([h, t], scope) ==
      if h.kind == BeforeEach && IsPrefix(h.scope, scope) then [h.action] else []
  {
    assert [h][..0] == [];
    assert [h, t][..1] == [h];
    assert BeforeEachFor([h, t], scope) == BeforeEachFor([h], scope);
  }

  lemma {:induction false} BlocksHooks(base: nat, vps: seq<Viewport>, cs: seq<Component>, i: nat, scope: seq<Scope>)
    requires |scope| >= 1 && scope[0].id == base + 2 * i
    requires i < |vps| ==> scope[0] == Scope(base + 2 * i, ViewportTitle(vps[i]))
    ensures BeforeEachFor(ViewportBlocks(base, vps, cs), scope) ==
      if i < |vps| then [ApplyViewport(vps[i].width, vps[i].height)] else []
  {
    if vps != [] {
      var n := |vps| - 1;
      var front := ViewportBlocks(base, vps[..n], cs);
      var blk := ViewportBlock(base, n, vps[n], cs);
      assert ViewportBlocks(base, vps, cs) == front + blk;
      if i < n {
        assert vps[..n][i] == vps[i];
      }
      BlocksHooks(base, vps[..n], cs, i, scope);
      BeforeEachAppend(front, blk, scope);
      BlockHooks(base, n, vps[n], cs, i, scope);
      if i < n {
        assert BeforeEachFor(blk, scope) == [];
      } else if i == n {
        assert BeforeEachFor(front, scope) == [];
      } else {
        assert BeforeEachFor(front, scope) == [] && BeforeEachFor(blk, scope) == [];
      }
    }
  }

  /**
   * Every test inside the i-th viewport's describe runs exactly one
   * `beforeEach`: the one that sets that viewport's size.
   */
  lemma ViewportHookScoped(base: nat, vps: seq<Viewport>, cs: seq<Component>, i: nat, scope: seq<Scope>)
    requires i < |vps|
    requires IsPrefix(OuterScope(base, i, vps[i]), scope)
    ensures BeforeEachFor(Registrations(base, vps, cs), scope) == [ApplyViewport(vps[i].width, vps[i].height)]
  {
    assert scope[0] == OuterScope(base, i, vps[i])[0];
    BeforeEachAppend(Preamble, ViewportBlocks(base, vps, cs), scope);
    PreambleHooks(scope);
    BlocksHooks(base, vps, cs, i, scope);
  }

  function HookPageActions(hs: seq<HookAction>): seq<Action> {
    if hs == [] then []
    else
      var n := |hs| - 1;
      HookPageActions(hs[..n])
      + (match hs[n] case ApplyViewport(w, h) => [SetViewportSize(w, h)] case FetchManifest => [])
  }

  function BodyActions(opts: Options, body: TestBody): seq<Action> {
    match body
    case Capture(vp, c) => CaseActions(opts, vp, c)
    case _ => []
  }

  /** What the page sees when a registered test runs: its hooks, then its body. */
  function RunActions(regs: seq<Registration>, t: Registration, opts: Options): (a: seq<Action>)
    requires t.Test?
    ensures t.body.Capture? ==>
      && |a| >= 3
      && a[|a| - 1] == Screenshot(Selector(opts.customSelectors, t.body.component.name),
                                  ScreenshotName(t.body.component, t.body.viewport))
  {
    HookPageActions(BeforeEachFor(regs, t.scope)) + BodyActions(opts, t.body)
  }

  /**
   * Running the capture test of component j at viewport i sets that
   * viewport's size and then performs exactly that case's steps.
   */
  lemma CaptureRun(base: nat, vps: seq<Viewport>, cs: seq<Component>, opts: Options, i: nat, j: nat)
    requires i < |vps| && j < |cs|
    ensures var ts := Tests(Registrations(base, vps, cs));
      && 1 + Times(i, 1 + |cs|) + 1 + j < |ts|
      && RunActions(Registrations(base, vps, cs), ts[1 + Times(i, 1 + |cs|) + 1 + j], opts) ==
           [SetViewportSize(vps[i].width, vps[i].height)] + CaseActions(opts, vps[i], cs[j])
  {
    TestLayout(base, vps, cs, i, j);
    var regs := Registrations(base, vps, cs);
    var inner := InnerScope(base, i, vps[i]);
    var t := Tests(regs)[1 + Times(i, 1 + |cs|) + 1 + j];
    assert t == Test(inner, "Component: " + cs[j].name, Capture(vps[i], cs[j]));
    InnerInOuter(base, i, vps[i]);
    ViewportHookScoped(base, vps, cs, i, inner);
    ViewportHookActions(vps[i].width, vps[i].height);
    assert RunActions(regs, t, opts)
        == HookPageActions([ApplyViewport(vps[i].width, vps[i].height)]) + CaseActions(opts, vps[i], cs[j]);
  }

  lemma InnerInOuter(base: nat, i: nat, vp: Viewport)
    ensures IsPrefix(OuterScope(base, i, vp), InnerScope(base, i, vp))
  {
    assert InnerScope(base, i, vp)[..1] == OuterScope(base, i, vp);
  }

  lemma ViewportHookActions(w: int, h: int)
    ensures HookPageActions([ApplyViewport(w, h)]) == [SetViewportSize(w, h)]
  {
    assert [ApplyViewport(w, h)][..0] == [];
  }

  /** The runner's registry, filled as the file's top-level code executes. */
  class Registry {
    var entries: seq<Registration>
    var describes: nat

    constructor ()
      ensures entries == [] && describes == 0
    {
      entries := [];
      describes := 0;
    }

    /** `test.describe(title, ...)`: opens a new describe object inside `parent`. */
    method Describe(parent: seq<Scope>, title: Title) returns (scope: seq<Scope>)
      modifies this
      ensures scope == parent + [Scope(old(describes), title)]
      ensures describes == old(describes) + 1 && entries == old(entries)
    {
      scope := parent + [Scope(describes, title)];
      describes := describes + 1;
    }

    /** `test.beforeAll` / `test.beforeEach` */
    method AddHook(kind: HookKind, scope: seq<Scope>, action: HookAction)
      modifies this
      ensures entries == old(entries) + [Hook(kind, scope, action)] && describes == old(describes)
    {
      entries := entries + [Hook(kind, scope, action)];
    }

    /** `test(title, ...)` */
    method AddTest(scope: seq<Scope>, title: string, body: TestBody)
      modifies this
      ensures entries == old(entries) + [Test(scope, title, body)] && describes == old(describes)
    {
      entries := entries + [Test(scope, title, body)];
    }

    /** `createComponentTest(component)` */
    method CreateComponentTest(inner: seq<Scope>, vp: Viewport, c: Component)
      modifies this
      ensures entries == old(entries) + [ComponentTest(inner, vp, c)] && describes == old(describes)
    {
      AddTest(inner, "Component: " + c.name, Capture(vp, c));
    }

    /** The body of the nested describe: the loop over the component list. */
    method RegisterComponents(inner: seq<Scope>, vp: Viewport, cs: seq<Component>)
      modifies this
      ensures entries == old(entries) + ComponentTests(inner, vp, cs)
      ensures describes == old(describes)
    {
      var j := 0;
      while j < |cs|
        invariant 0 <= j <= |cs|
        invariant describes == old(describes)
        invariant entries == old(entries) + ComponentTests(inner, vp, cs[..j])
      {
        CreateComponentTest(inner, vp, cs[j]);
        assert cs[..j + 1][..j] == cs[..j];
        j := j + 1;
      }
      assert cs[..j] == cs;
    }

    /** The describe of one viewport: its hook, its list check, its nested describe. */
    method RegisterViewport(base: nat, i: nat, vp: Viewport, cs: seq<Component>)
      requires describes == base + 2 * i
      modifies this
      ensures entries == old(entries) + ViewportBlock(base, i, vp, cs)
      ensures describes == old(describes) + 2
    {
      var outer := Describe([], ViewportTitle(vp));
      AddHook(BeforeEach, outer, ApplyViewport(vp.width, vp.height));
      AddTest(outer, ListLoadedTitle, ExpectListLoaded);
      assert outer == OuterScope(base, i, vp);
      ghost var head := entries;
      var inner := Describe(outer, InnerTitle);
      assert inner == InnerScope(base, i, vp);
      RegisterComponents(inner, vp, cs);
      assert entries == head + ComponentTests(inner, vp, cs);
    }

    /** The `for (const viewport of config.viewports)` loop. */
    method RegisterViewports(vps: seq<Viewport>, cs: seq<Component>)
      modifies this
      ensures entries == old(entries) + ViewportBlocks(old(describes), vps, cs)
      ensures describes == old(describes) + 2 * |vps|
    {
      var base := describes;
      ghost var start := entries;
      var i := 0;
      while i < |vps|
        invariant 0 <= i <= |vps|
        invariant describes == base + 2 * i
        invariant entries == start + ViewportBlocks(base, vps[..i], cs)
      {
        RegisterViewport(base, i, vps[i], cs);
        BlocksSnoc(base, vps, cs, i);
        AppendAssoc(start, ViewportBlocks(base, vps[..i], cs), ViewportBlock(base, i, vps[i], cs));
        i := i + 1;
      }
      assert vps[..i] == vps;
    }

    /** The top-level code of the spec file, with the list the component loop iterates. */
    method RegisterSpec(vps: seq<Viewport>, cs: seq<Component>)
      modifies this
      ensures entries == old(entries) + Registrations(old(describes), vps, cs)
      ensures describes == old(describes) + 2 * |vps|
    {
      ghost var start := entries;
      AddHook(BeforeAll, [], FetchManifest);
      AddTest([], TopTitle, ExpectComponents);
      assert entries == start + Preamble;
      RegisterViewports(vps, cs);
      AppendAssoc(start, Preamble, ViewportBlocks(old(describes), vps, cs));
    }
  }
}
