/**
 * The spec file as a whole: the module-level `components` variable, what
 * loading the file registers, what the suite-level `beforeAll` does to the
 * variable, and how the registered tests multiply over the projects.
 */
module VisualSpec {
  import opened Wrappers
  import opened Json
  import opened Text
  import opened Manifest
  import opened VisualTestConfig
  import opened ComponentCase
  import opened Registration
  import opened PlaywrightConfig

  /** The loaded spec file: its module state and the runner's registry. */
  class SpecFile {
    /** `let components = []`, reassigned only by the suite-level hook. */
    var components: seq<Value>
    /** The indices the last run of the hook warned about. */
    var warned: seq<nat>
    const registry: Registry

    /**
     * Loading the file: `components` is `[]`, and the top-level loops run
     * right away, so the component loop iterates that empty list.
     */
    constructor Load(cfg: VisualConfig)
      ensures components == [] && warned == []
      ensures fresh(registry)
      ensures registry.entries == Registrations(0, cfg.viewports, [])
      ensures registry.describes == 2 * |cfg.viewports|
    {
      components := [];
      warned := [];
      var r := new Registry();
      r.RegisterSpec(cfg.viewports, []);
      registry := r;
    }

    /**
     * The suite-level `beforeAll`: fetch, check the shape, assign the list,
     * warn about incomplete entries; on any error the catch block empties
     * the list and rethrows.
     */
    method BeforeAll(resp: Response) returns (thrown: Option<Error>)
      modifies this
      ensures components == LoadManifest(resp).components
      ensures warned == LoadManifest(resp).warned
      ensures thrown == LoadManifest(resp).error
    {
      warned := [];
      if !resp.ok {
        components := [];
        return Some(FetchFailed(resp.status, resp.statusText));
      }
      if resp.body.None? {
        components := [];
        return Some(BodyNotJson);
      }
      var data := resp.body.value;
      if Nullish(data) {
        components := [];
        return Some(PropertyOfNullish("blocks"));
      }
      var blocks := Get(data, "blocks");
      if !Truthy(blocks) || !Get(blocks, "data").Arr? {
        components := [];
        return Some(InvalidFormat);
      }
      components := Get(blocks, "data").items;
      var threw;
      warned, threw := CheckEntries(components);
      if threw {
        components := [];
        return Some(PropertyOfNullish("name"));
      }
      thrown := None;
    }
  }

  /** `expect(components.length).toBeGreaterThan(0)`, the body of both list checks. */
  predicate ListCheckPasses(components: seq<Value>) {
    |components| > 0
  }

  /**
   * After the hook, the list checks pass exactly when it succeeded on a
   * non-empty `blocks.data`; after any error they fail.
   */
  lemma ListChecksAfterLoad(resp: Response)
    ensures LoadManifest(resp).error.Some? ==> !ListCheckPasses(LoadManifest(resp).components)
    ensures LoadManifest(resp).error.None? ==>
      (ListCheckPasses(LoadManifest(resp).components) <==> |Entries(resp.body.value)| > 0)
  {
    ErrorLeavesNoComponents(resp);
    LoadSucceeds(resp);
  }

  /** One test run by one project. */
  datatype Run = Run(project: Project, test: Registration)

  /** Every registered test, once per project. */
  function ProjectRuns(p: Project, ts: seq<Registration>): seq<Run> {
    seq(|ts|, k requires 0 <= k < |ts| => Run(p, ts[k]))
  }

  /** The runs of a whole invocation, project by project. */
  function RunMatrix(ps: seq<Project>, ts: seq<Registration>): (rs: seq<Run>)
    ensures forall k :: 0 <= k < |rs| ==> rs[k].project in ps && rs[k].test in ts
  {
    if ps == [] then []
    else
      var n := |ps| - 1;
      RunMatrix(ps[..n], ts) + ProjectRuns(ps[n], ts)
  }

  lemma {:induction false} RunMatrixTimes(ps: seq<Project>, ts: seq<Registration>)
    ensures |RunMatrix(ps, ts)| == Times(|ps|, |ts|)
  {
    if ps != [] {
      RunMatrixTimes(ps[..|ps| - 1], ts);
    }
  }

  /** The invocation runs |projects| * |tests| tests. */
  lemma RunCount(ps: seq<Project>, ts: seq<Registration>)
    ensures |RunMatrix(ps, ts)| == |ps| * |ts|
  {
    RunMatrixTimes(ps, ts);
    TimesIsProduct(|ps|, |ts|);
  }

  /** A run pairs a project and a test exactly when both are in the invocation. */
  lemma {:induction false} RunsCover(ps: seq<Project>, ts: seq<Registration>, r: Run)
    ensures r in RunMatrix(ps, ts) <==> r.project in ps && r.test in ts
  {
    if ps != [] {
      var n := |ps| - 1;
      RunsCover(ps[..n], ts, r);
      assert ps == ps[..n] + [ps[n]];
      if r.project == ps[n] && r.test in ts {
        var k :| 0 <= k < |ts| && ts[k] == r.test;
        assert ProjectRuns(ps[n], ts)[k] == r;
      }
    }
  }

  /**
   * With the shipped configuration, two projects over four viewports:
   * 2 * (1 + 4 * (1 + |cs|)) runs for a list of |cs| components.
   */
  lemma ShippedRunCount(cs: seq<Component>)
    ensures |RunMatrix(Projects(Shipped.browsers), Tests(Registrations(0, Shipped.viewports, cs)))|
      == 10 + 8 * |cs|
  {
    ShippedProjects();
    ShippedViewports();
    TestCount(0, Shipped.viewports, cs);
    RunCount(Projects(Shipped.browsers), Tests(Registrations(0, Shipped.viewports, cs)));
  }

  /**
   * What loading the shipped file registers: with the empty list the loop
   * sees, the suite check and one list check per viewport, so ten runs over
   * the two projects and no capture at all.
   */
  lemma ShippedLoadRegistersNoCaptures()
    ensures var ts := Tests(Registrations(0, Shipped.viewports, []));
      && |ts| == 5
      && (forall k :: 0 <= k < |ts| ==> !ts[k].body.Capture?)
      && |RunMatrix(Projects(Shipped.browsers), ts)| == 10
  {
    ShippedViewports();
    EmptyListRegistersNoCaptures(0, Shipped.viewports);
    ShippedRunCount([]);
  }

  /**
   * The numerals the title template renders for the shipped sizes, one
   * viewport at a time.
   */
  lemma MobileNumerals()
    ensures IntText(375) == "375" && IntText(667) == "667"
  {
    NatTextOfThree(375);
    NatTextOfThree(667);
  }

  lemma TabletNumerals()
    ensures IntText(768) == "768" && IntText(1024) == "1024"
  {
    NatTextOfThree(768);
    NatTextOfFour(1024);
  }

  lemma DesktopNumerals()
    ensures IntText(1280) == "1280" && IntText(720) == "720"
  {
    NatTextOfFour(1280);
    NatTextOfThree(720);
  }

  lemma WidescreenNumerals()
    ensures IntText(1920) == "1920" && IntText(1080) == "1080"
  {
    NatTextOfFour(1920);
    NatTextOfFour(1080);
  }

  /** A viewport's title, once the numerals of its size are known. */
  lemma TitleOf(vp: Viewport, n: string, w: string, h: string)
    requires vp.name == n && IntText(vp.width) == w && IntText(vp.height) == h
    ensures TitleText(ViewportTitle(vp)) == "Viewport: " + n + " (" + w + "x" + h + ")"
  {
  }

  /** The template pieces of each shipped title spell it out. */
  lemma MobileSpelling()
    ensures "Viewport: " + "mobile" + " (" + "375" + "x" + "667" + ")" == "Viewport: mobile (375x667)"
  {
  }

  lemma TabletSpelling()
    ensures "Viewport: " + "tablet" + " (" + "768" + "x" + "1024" + ")" == "Viewport: tablet (768x1024)"
  {
  }

  lemma DesktopSpelling()
    ensures "Viewport: " + "desktop" + " (" + "1280" + "x" + "720" + ")" == "Viewport: desktop (1280x720)"
  {
  }

  lemma WidescreenSpelling()
    ensures "Viewport: " + "widescreen" + " (" + "1920" + "x" + "1080" + ")" == "Viewport: widescreen (1920x1080)"
  {
  }

  /** The describe titles of the four shipped viewports, in configuration order. */
  lemma MobileTitle()
    ensures TitleText(ViewportTitle(Shipped.viewports[0])) == "Viewport: mobile (375x667)"
  {
    MobileNumerals();
    ShippedViewports();
    TitleOf(Shipped.viewports[0], "mobile", "375", "667");
    MobileSpelling();
  }

  lemma TabletTitle()
    ensures TitleText(ViewportTitle(Shipped.viewports[1])) == "Viewport: tablet (768x1024)"
  {
    TabletNumerals();
    ShippedViewports();
    TitleOf(Shipped.viewports[1], "tablet", "768", "1024");
    TabletSpelling();
  }

  lemma DesktopTitle()
    ensures TitleText(ViewportTitle(Shipped.viewports[2])) == "Viewport: desktop (1280x720)"
  {
    DesktopNumerals();
    ShippedViewports();
    TitleOf(Shipped.viewports[2], "desktop", "1280", "720");
    DesktopSpelling();
  }

  lemma WidescreenTitle()
    ensures TitleText(ViewportTitle(Shipped.viewports[3])) == "Viewport: widescreen (1920x1080)"
  {
    WidescreenNumerals();
    ShippedViewports();
    TitleOf(Shipped.viewports[3], "widescreen", "1920", "1080");
    WidescreenSpelling();
  }

  /** The four shipped viewport blocks have four different describe titles. */
  lemma ShippedViewportTitlesDistinct()
    ensures forall i, j :: 0 <= i < j < |Shipped.viewports| ==>
      TitleText(ViewportTitle(Shipped.viewports[i])) != TitleText(ViewportTitle(Shipped.viewports[j]))
  {
    ShippedViewports();
    var vps := Shipped.viewports;
    forall i, j | 0 <= i < j < |vps|
      ensures TitleText(ViewportTitle(vps[i])) != TitleText(ViewportTitle(vps[j]))
    {
      assert vps[i].name[0] != vps[j].name[0];
      ViewportTitlesDiffer(vps[i], vps[j]);
    }
  }
}
