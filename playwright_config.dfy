/**
 * The `projects` list of the Playwright configuration: the enabled browsers,
 * in configuration order, each named after the browser and given the device
 * key `Desktop <Name>`.
 */
module PlaywrightConfig {
  import opened VisualTestConfig

  datatype Project = Project(name: string, device: string)

  /** `toUpperCase` of one character, restricted to ASCII. */
  function Upper(c: char): (u: char)
    ensures 'a' <= c <= 'z' ==> 'A' <= u <= 'Z' && u as int == c as int - 32
    ensures !('a' <= c <= 'z') ==> u == c
  {
    if 'a' <= c <= 'z' then (c as int - 32) as char else c
  }

  /** `s.charAt(0).toUpperCase() + s.slice(1)`; `charAt(0)` of "" is "". */
  function Capitalize(s: string): (r: string)
    ensures |r| == |s|
    ensures s != "" ==> r[0] == Upper(s[0])
    ensures forall k :: 1 <= k < |s| ==> r[k] == s[k]
  {
    if s == "" then "" else [Upper(s[0])] + s[1..]
  }

  function DeviceKey(name: string): (key: string)
    ensures |key| == 8 + |name|
    ensures key[..8] == "Desktop " && key[8..] == Capitalize(name)
  {
    "Desktop " + Capitalize(name)
  }

  function ProjectOf(b: Browser): (p: Project)
    ensures p.name == b.name && |p.device| == 8 + |b.name|
  {
    Project(b.name, DeviceKey(b.name))
  }

  /** `browsers.filter(b => b.enabled).map(ProjectOf)`. */
  function Projects(bs: seq<Browser>): (ps: seq<Project>)
    ensures |ps| <= |bs|
    ensures forall k :: 0 <= k < |ps| ==> ps[k].device == DeviceKey(ps[k].name)
  {
    if bs == [] then []
    else
      var last := bs[|bs| - 1];
      Projects(bs[..|bs| - 1]) + (if last.enabled then [ProjectOf(last)] else [])
  }

  /** The positions of the enabled browsers, in increasing order. */
  function EnabledIndices(bs: seq<Browser>): (idx: seq<nat>)
    ensures forall k :: 0 <= k < |idx| ==> idx[k] < |bs| && bs[idx[k]].enabled
    ensures forall i :: 0 <= i < |bs| && bs[i].enabled ==> i in idx
    ensures forall k, l :: 0 <= k < l < |idx| ==> idx[k] < idx[l]
  {
    if bs == [] then []
    else
      var n := |bs| - 1;
      EnabledIndices(bs[..n]) + (if bs[n].enabled then [n] else [])
  }

  /**
   * The projects are exactly the enabled browsers, taken in configuration
   * order: the k-th project comes from the k-th enabled browser.
   */
  lemma {:induction false} ProjectsFollowEnabledBrowsers(bs: seq<Browser>)
    ensures |Projects(bs)| == |EnabledIndices(bs)|
    ensures forall k :: 0 <= k < |Projects(bs)| ==>
      Projects(bs)[k] == ProjectOf(bs[EnabledIndices(bs)[k]])
  {
    if bs != [] {
      var n := |bs| - 1;
      ProjectsFollowEnabledBrowsers(bs[..n]);
      forall k | 0 <= k < |EnabledIndices(bs[..n])|
        ensures bs[..n][EnabledIndices(bs[..n])[k]] == bs[EnabledIndices(bs[..n])[k]]
      {
      }
    }
  }

  /** The number of projects is the number of browsers with `enabled` set. */
  lemma {:induction false} ProjectCount(bs: seq<Browser>)
    ensures |Projects(bs)| == |set i | 0 <= i < |bs| && bs[i].enabled|
  {
    if bs != [] {
      var n := |bs| - 1;
      ProjectCount(bs[..n]);
      var before := set i | 0 <= i < n && bs[..n][i].enabled;
      var all := set i | 0 <= i < |bs| && bs[i].enabled;
      if bs[n].enabled {
        assert all == before + {n};
      } else {
        assert all == before;
      }
    }
  }

  /** Every project comes from an enabled browser, whose name it carries. */
  lemma ProjectsAreEnabled(bs: seq<Browser>, p: Project)
    requires p in Projects(bs)
    ensures exists i :: 0 <= i < |bs| && bs[i].enabled && p == ProjectOf(bs[i])
    ensures exists i ::
      && 0 <= i < |bs| && bs[i].enabled
      && p.name == bs[i].name && p.device == DeviceKey(bs[i].name)
  {
    ProjectsFollowEnabledBrowsers(bs);
    var k :| 0 <= k < |Projects(bs)| && Projects(bs)[k] == p;
    var i := EnabledIndices(bs)[k];
    assert bs[i].enabled && p == ProjectOf(bs[i]);
  }

  /** With distinct names, no project carries the name of a disabled browser. */
  lemma DisabledBrowserHasNoProject(bs: seq<Browser>, i: nat)
    requires BrowsersWellFormed(bs)
    requires i < |bs| && !bs[i].enabled
    ensures forall p :: p in Projects(bs) ==> p.name != bs[i].name
  {
    forall p | p in Projects(bs)
      ensures p.name != bs[i].name
    {
      ProjectsAreEnabled(bs, p);
      var j :| 0 <= j < |bs| && bs[j].enabled && p == ProjectOf(bs[j]);
      assert j != i;
    }
  }

  /** Every enabled browser has a project. */
  lemma EnabledBrowserHasProject(bs: seq<Browser>, i: nat)
    requires i < |bs| && bs[i].enabled
    ensures ProjectOf(bs[i]) in Projects(bs)
  {
    ProjectsFollowEnabledBrowsers(bs);
    var idx := EnabledIndices(bs);
    var k :| 0 <= k < |idx| && idx[k] == i;
    assert Projects(bs)[k] == ProjectOf(bs[i]);
  }

  /**
   * The device key is "Desktop " followed by the name with its first
   * character upper-cased; for names that do not start with an upper-case
   * ASCII letter the key determines the name.
   */
  lemma DeviceKeyShape(name: string)
    requires name != ""
    ensures DeviceKey(name) == "Desktop " + [Upper(name[0])] + name[1..]
    ensures |DeviceKey(name)| == 8 + |name|
  {
  }

  predicate StartsLower(name: string) {
    name == "" || !('A' <= name[0] <= 'Z')
  }

  lemma CapitalizeInjective(a: string, b: string)
    requires StartsLower(a) && StartsLower(b)
    requires Capitalize(a) == Capitalize(b)
    ensures a == b
  {
    if a != "" && b != "" {
      assert Upper(a[0]) == Capitalize(a)[0] == Capitalize(b)[0] == Upper(b[0]);
      assert a[1..] == Capitalize(a)[1..] == Capitalize(b)[1..] == b[1..];
      assert a == [a[0]] + a[1..];
      assert b == [b[0]] + b[1..];
    }
  }

  lemma DeviceKeyInjective(a: string, b: string)
    requires StartsLower(a) && StartsLower(b)
    requires DeviceKey(a) == DeviceKey(b)
    ensures a == b
  {
    assert DeviceKey(a)[8..] == Capitalize(a);
    assert DeviceKey(b)[8..] == Capitalize(b);
    CapitalizeInjective(a, b);
  }

  /** With the shipped configuration: chromium and firefox, not webkit. */
  lemma ShippedProjects()
    ensures Projects(Shipped.browsers) ==
      [Project("chromium", "Desktop Chromium"), Project("firefox", "Desktop Firefox")]
  {
    var bs := Shipped.browsers;
    assert DeviceKey("chromium") == "Desktop Chromium";
    assert DeviceKey("firefox") == "Desktop Firefox";
    assert bs[..2][..1] == [Browser("chromium", true)];
    assert bs[..2] == [Browser("chromium", true), Browser("firefox", true)];
    assert Projects(bs[..2][..1]) == [Project("chromium", "Desktop Chromium")];
    assert Projects(bs[..2]) == Projects(bs[..2][..1]) + [Project("firefox", "Desktop Firefox")];
  }
}
