/**
 * One component test: the selector it targets, the screenshot name it
 * compares against, and the browser actions it performs, in order.
 */
module ComponentCase {
  import opened Wrappers
  import opened VisualTestConfig

  /** A manifest entry at its declared type `{ name: string, path: string }`. */
  datatype Component = Component(name: string, path: string)

  /**
   * `customSelectors?.[name] || "." + name`: an override is used only when
   * it is present and non-empty (the empty string is falsy).
   */
  function Selector(custom: Option<map<string, string>>, name: string): (sel: string)
    ensures sel != ""
    ensures custom.Some? && name in custom.value && custom.value[name] != "" ==>
      sel == custom.value[name]
    ensures !(custom.Some? && name in custom.value && custom.value[name] != "") ==>
      sel == "." + name
  {
    if custom.Some? && name in custom.value && custom.value[name] != "" then custom.value[name]
    else "." + name
  }

  /** An empty override falls back to the default. */
  lemma EmptyOverrideFallsBack(custom: map<string, string>, name: string)
    requires name in custom && custom[name] == ""
    ensures Selector(Some(custom), name) == "." + name
  {
  }

  /** With the shipped (empty) overrides every component gets its default selector. */
  lemma ShippedSelectorsAreDefault(name: string)
    ensures Selector(Shipped.options.customSelectors, name) == "." + name
  {
  }

  /** `${component.name}-${viewport.name}.png` */
  function ScreenshotName(c: Component, vp: Viewport): (n: string)
    ensures |n| == |c.name| + 1 + |vp.name| + 4
    ensures n[..|c.name|] == c.name && n[|c.name|] == '-'
  {
    c.name + "-" + vp.name + ".png"
  }

  /** Hyphens in names can make two cases share a screenshot name. */
  lemma ScreenshotNamesCanCollide(p: string, w: int, h: int)
    ensures ScreenshotName(Component("a-b", p), Viewport("c", w, h))
         == ScreenshotName(Component("a", p), Viewport("b-c", w, h))
  {
  }

  /** Of two equal concatenations, the shorter tail is a suffix of the longer. */
  lemma SuffixOfEqual(p: string, x: string, q: string, y: string)
    requires p + x == q + y && |x| <= |y|
    ensures x == y[|y| - |x|..]
  {
    var s := p + x;
    assert x == s[|p|..];
    assert y == s[|q|..];
  }

  function Dashed(vp: Viewport): string {
    "-" + vp.name + ".png"
  }

  predicate HyphenFree(s: string) {
    forall i :: 0 <= i < |s| ==> s[i] != '-'
  }

  lemma OnlyLeadingHyphen(v: Viewport, k: nat)
    requires HyphenFree(v.name) && k <= |v.name| && Dashed(v)[k] == '-'
    ensures k == 0
  {
  }

  /** For non-empty hyphen-free viewport names, "-name.png" is a suffix of another only if equal. */
  lemma HyphenFreeTails(v1: Viewport, v2: Viewport)
    requires v1.name != "" && HyphenFree(v2.name)
    requires |Dashed(v1)| <= |Dashed(v2)|
    requires Dashed(v1) == Dashed(v2)[|Dashed(v2)| - |Dashed(v1)|..]
    ensures v1.name == v2.name
  {
    var d1, d2 := Dashed(v1), Dashed(v2);
    var k := |d2| - |d1|;
    assert d2[k] == d1[0] == '-';
    OnlyLeadingHyphen(v2, k);
    assert v1.name == d1[1..|d1| - 4];
    assert v2.name == d2[1..|d2| - 4];
  }

  /**
   * When viewport names are non-empty and contain no hyphen, the screenshot
   * name determines the component name and the viewport name.
   */
  lemma ScreenshotNamesDistinct(c1: Component, v1: Viewport, c2: Component, v2: Viewport)
    requires v1.name != "" && v2.name != "" && HyphenFree(v1.name) && HyphenFree(v2.name)
    requires ScreenshotName(c1, v1) == ScreenshotName(c2, v2)
    ensures c1.name == c2.name && v1.name == v2.name
  {
    assert ScreenshotName(c1, v1) == c1.name + Dashed(v1);
    assert ScreenshotName(c2, v2) == c2.name + Dashed(v2);
    DashedNamesDistinct(c1.name, v1, c2.name, v2);
  }

  lemma DashedNamesDistinct(n1: string, v1: Viewport, n2: string, v2: Viewport)
    requires v1.name != "" && v2.name != "" && HyphenFree(v1.name) && HyphenFree(v2.name)
    requires n1 + Dashed(v1) == n2 + Dashed(v2)
    ensures n1 == n2 && v1.name == v2.name
  {
    if |Dashed(v1)| <= |Dashed(v2)| {
      SuffixOfEqual(n1, Dashed(v1), n2, Dashed(v2));
      HyphenFreeTails(v1, v2);
    } else {
      SuffixOfEqual(n2, Dashed(v2), n1, Dashed(v1));
      HyphenFreeTails(v2, v1);
    }
    var s := n1 + Dashed(v1);
    assert n1 == s[..|n1|];
    assert n2 == s[..|n2|];
  }

  /** With the shipped viewports no two cases compare against the same baseline name. */
  lemma ShippedScreenshotNamesDistinct(c1: Component, v1: Viewport, c2: Component, v2: Viewport)
    requires v1 in Shipped.viewports && v2 in Shipped.viewports
    requires ScreenshotName(c1, v1) == ScreenshotName(c2, v2)
    ensures c1.name == c2.name && v1 == v2
  {
    ShippedViewports();
    var vs := Shipped.viewports;
    assert forall i :: 0 <= i < |vs| ==> HyphenFree(vs[i].name);
    ScreenshotNamesDistinct(c1, v1, c2, v2);
  }

  /** The page operations a test performs, abstracted to what they are given. */
  datatype Action =
    | SetViewportSize(width: int, height: int)
    | Goto(path: string)
    | WaitVisible(selector: string)
    | WaitTimeout(ms: int)
    | Screenshot(selector: string, name: string)

  /** The body of a `Component: <name>` test, as the sequence of its page actions. */
  function CaseActions(opts: Options, vp: Viewport, c: Component): (a: seq<Action>)
    ensures 3 <= |a| <= 4
    ensures a[0] == Goto(c.path)
    ensures a[|a| - 1].Screenshot? && a[|a| - 1].name == ScreenshotName(c, vp)
  {
    var sel := Selector(opts.customSelectors, c.name);
    [Goto(c.path), WaitVisible(sel)]
    + (if opts.stabilizationTime != 0 then [WaitTimeout(opts.stabilizationTime)] else [])
    + [Screenshot(sel, ScreenshotName(c, vp))]
  }

  /**
   * Navigation comes first, then the visibility wait, then the settle delay
   * (present exactly when the stabilization time is non-zero), and last the
   * screenshot of the very element that was awaited.
   */
  lemma CaseActionOrder(opts: Options, vp: Viewport, c: Component)
    ensures var a := CaseActions(opts, vp, c);
      && |a| == (if opts.stabilizationTime != 0 then 4 else 3)
      && a[0] == Goto(c.path)
      && a[1] == WaitVisible(Selector(opts.customSelectors, c.name))
      && (opts.stabilizationTime != 0 ==> a[2] == WaitTimeout(opts.stabilizationTime))
      && a[|a| - 1] == Screenshot(a[1].selector, c.name + "-" + vp.name + ".png")
      && (forall k :: 0 <= k < |a| && a[k].WaitTimeout? ==> k == 2 && opts.stabilizationTime != 0)
  {
  }

  /** With the shipped options every case waits 500 ms on the default selector. */
  lemma ShippedCaseActions(vp: Viewport, c: Component)
    ensures CaseActions(Shipped.options, vp, c) ==
      [ Goto(c.path), WaitVisible("." + c.name), WaitTimeout(500),
        Screenshot("." + c.name, c.name + "-" + vp.name + ".png") ]
  {
  }

  /** A browser page, seen through the actions performed on it. */
  class Page {
    var actions: seq<Action>

    constructor ()
      ensures actions == []
    {
      actions := [];
    }

    method SetViewport(width: int, height: int)
      modifies this
      ensures actions == old(actions) + [SetViewportSize(width, height)]
    {
      actions := actions + [SetViewportSize(width, height)];
    }

    method Goto(path: string)
      modifies this
      ensures actions == old(actions) + [Action.Goto(path)]
    {
      actions := actions + [Action.Goto(path)];
    }

    method WaitForSelector(selector: string)
      modifies this
      ensures actions == old(actions) + [WaitVisible(selector)]
    {
      actions := actions + [WaitVisible(selector)];
    }

    method WaitForTimeout(ms: int)
      modifies this
      ensures actions == old(actions) + [WaitTimeout(ms)]
    {
      actions := actions + [WaitTimeout(ms)];
    }

    /** `expect(page.locator(selector)).toHaveScreenshot(name)` */
    method ToHaveScreenshot(selector: string, name: string)
      modifies this
      ensures actions == old(actions) + [Screenshot(selector, name)]
    {
      actions := actions + [Screenshot(selector, name)];
    }
  }

  /** The `beforeEach` hook of a viewport's describe block. */
  method RunBeforeEach(page: Page, vp: Viewport)
    modifies page
    ensures page.actions == old(page.actions) + [SetViewportSize(vp.width, vp.height)]
  {
    page.SetViewport(vp.width, vp.height);
  }

  /** The body of a component test, statement by statement. */
  method RunComponentTest(page: Page, opts: Options, vp: Viewport, c: Component)
    modifies page
    ensures page.actions == old(page.actions) + CaseActions(opts, vp, c)
  {
    page.Goto(c.path);
    var selector := Selector(opts.customSelectors, c.name);
    page.WaitForSelector(selector);
    if opts.stabilizationTime != 0 {
      page.WaitForTimeout(opts.stabilizationTime);
    }
    page.ToHaveScreenshot(selector, c.name + "-" + vp.name + ".png");
  }
}
