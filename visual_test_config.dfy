/** The harness configuration object and the constant the repository ships. */
module VisualTestConfig {
  import opened Wrappers

  datatype Viewport = Viewport(name: string, width: int, height: int)

  datatype Browser = Browser(name: string, enabled: bool)

  /**
   * `customSelectors` is optional because the harness reads it with `?.`;
   * `parallelizeComponents` is carried but read by none of the modelled code.
   */
  datatype Options = Options(
    stabilizationTime: int,
    parallelizeComponents: bool,
    customSelectors: Option<map<string, string>>)

  datatype VisualConfig = VisualConfig(
    viewports: seq<Viewport>,
    browsers: seq<Browser>,
    options: Options)

  const Shipped: VisualConfig := VisualConfig(
    [ Viewport("mobile", 375, 667),
      Viewport("tablet", 768, 1024),
      Viewport("desktop", 1280, 720),
      Viewport("widescreen", 1920, 1080) ],
    [ Browser("chromium", true),
      Browser("firefox", true),
      Browser("webkit", false) ],
    Options(500, true, Some(map[])))

  /** Viewport names are non-empty and pairwise distinct; sizes are positive. */
  predicate ViewportsWellFormed(vps: seq<Viewport>) {
    && (forall i :: 0 <= i < |vps| ==> vps[i].name != "" && vps[i].width > 0 && vps[i].height > 0)
    && (forall i, j :: 0 <= i < j < |vps| ==> vps[i].name != vps[j].name)
  }

  /** Browser names are non-empty and pairwise distinct. */
  predicate BrowsersWellFormed(bs: seq<Browser>) {
    && (forall i :: 0 <= i < |bs| ==> bs[i].name != "")
    && (forall i, j :: 0 <= i < j < |bs| ==> bs[i].name != bs[j].name)
  }

  lemma ShippedViewports()
    ensures |Shipped.viewports| == 4
    ensures Shipped.viewports[0] == Viewport("mobile", 375, 667)
    ensures Shipped.viewports[1] == Viewport("tablet", 768, 1024)
    ensures Shipped.viewports[2] == Viewport("desktop", 1280, 720)
    ensures Shipped.viewports[3] == Viewport("widescreen", 1920, 1080)
    ensures ViewportsWellFormed(Shipped.viewports)
  {
  }

  lemma ShippedBrowsers()
    ensures BrowsersWellFormed(Shipped.browsers)
    ensures |Shipped.browsers| == 3
    ensures Shipped.browsers[0] == Browser("chromium", true)
    ensures Shipped.browsers[1] == Browser("firefox", true)
    ensures Shipped.browsers[2] == Browser("webkit", false)
  {
  }

  lemma ShippedOptions()
    ensures Shipped.options.stabilizationTime == 500
    ensures Shipped.options.stabilizationTime != 0
    ensures Shipped.options.customSelectors == Some(map[])
  {
  }
}
