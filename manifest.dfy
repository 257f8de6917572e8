/**
 * The manifest check of the suite-level `beforeAll` hook: from the (already
 * decoded) response it decides whether the run gets a component list or an
 * error, and which entries draw a data-quality warning.
 */
module Manifest {
  import opened Wrappers
  import opened Json
  import opened Text

  /** An HTTP response; `body` is None when `response.json()` rejects. */
  datatype Response = Response(ok: bool, status: int, statusText: string, body: Option<Value>)

  datatype Error =
    | FetchFailed(status: int, statusText: string)
    | BodyNotJson
    | InvalidFormat
    | PropertyOfNullish(property: string)

  /** Where the hook leaves the list, which indices it warned about, what it threw. */
  datatype Loaded = Loaded(components: seq<Value>, warned: seq<nat>, error: Option<Error>)

  const FetchFailedPrefix := "Failed to fetch components: "
  const InvalidFormatMessage := "Invalid response format: missing blocks.data array"

  /** The messages of the two errors the hook raises itself. */
  function Message(e: Error): (m: string)
    requires e.FetchFailed? || e.InvalidFormat?
    ensures e.FetchFailed? ==>
      && |FetchFailedPrefix| + |e.statusText| < |m|
      && m[..|FetchFailedPrefix|] == FetchFailedPrefix
      && m[|m| - |e.statusText|..] == e.statusText
  {
    if e.FetchFailed? then
      var m := FetchFailedPrefix + IntText(e.status) + " " + e.statusText;
      assert m == FetchFailedPrefix + (IntText(e.status) + " " + e.statusText);
      assert m == (FetchFailedPrefix + IntText(e.status) + " ") + e.statusText;
      m
    else InvalidFormatMessage
  }

  predicate Contains(s: string, part: string) {
    exists i, j :: 0 <= i <= j <= |s| && s[i..j] == part
  }

  /** An entry whose `name` or `path` is falsy (it is warned about, not dropped). */
  predicate Incomplete(v: Value)
    requires !Nullish(v)
    ensures !v.Obj? ==> Incomplete(v)
  {
    !Truthy(Get(v, "name")) || !Truthy(Get(v, "path"))
  }

  /** The outcome of the warning loop from index i on. */
  datatype Scan = Scan(warned: seq<nat>, threw: bool)

  /**
   * The `forEach` over the entries from index `i`: an incomplete entry adds
   * its index to the warnings; a null entry makes `component.name` throw,
   * which ends the loop.
   */
  function ScanFrom(cs: seq<Value>, i: nat): (r: Scan)
    requires i <= |cs|
    ensures |r.warned| <= |cs| - i
    ensures forall k :: 0 <= k < |r.warned| ==> i <= r.warned[k] < |cs|
    decreases |cs| - i
  {
    if i == |cs| then Scan([], false)
    else if Nullish(cs[i]) then Scan([], true)
    else
      var rest := ScanFrom(cs, i + 1);
      if Incomplete(cs[i]) then Scan([i] + rest.warned, rest.threw) else rest
  }

  /** No entry from i up to and including k is nullish. */
  predicate ReachedFrom(cs: seq<Value>, i: nat, k: nat)
    requires i <= k < |cs|
  {
    forall m :: i <= m <= k ==> !Nullish(cs[m])
  }

  /** The loop throws exactly when some entry is nullish. */
  lemma {:induction false} ScanThrows(cs: seq<Value>, i: nat)
    requires i <= |cs|
    ensures ScanFrom(cs, i).threw <==> exists k :: i <= k < |cs| && Nullish(cs[k])
    decreases |cs| - i
  {
    if i < |cs| && !Nullish(cs[i]) {
      ScanThrows(cs, i + 1);
    }
  }

  /** It warns about exactly the incomplete entries it reaches. */
  lemma {:induction false} ScanWarnings(cs: seq<Value>, i: nat)
    requires i <= |cs|
    ensures forall k :: k in ScanFrom(cs, i).warned <==>
      i <= k < |cs| && ReachedFrom(cs, i, k) && Incomplete(cs[k])
    decreases |cs| - i
  {
    if i < |cs| && !Nullish(cs[i]) {
      ScanWarnings(cs, i + 1);
      forall k | i + 1 <= k < |cs|
        ensures ReachedFrom(cs, i, k) <==> ReachedFrom(cs, i + 1, k)
      {
      }
    }
  }

  /** It warns in increasing index order, so once per index. */
  lemma {:induction false} ScanInOrder(cs: seq<Value>, i: nat)
    requires i <= |cs|
    ensures forall a, b :: 0 <= a < b < |ScanFrom(cs, i).warned| ==>
      ScanFrom(cs, i).warned[a] < ScanFrom(cs, i).warned[b]
    decreases |cs| - i
  {
    if i < |cs| && !Nullish(cs[i]) {
      ScanInOrder(cs, i + 1);
      ScanWarnings(cs, i + 1);
      var rest := ScanFrom(cs, i + 1).warned;
      assert forall a :: 0 <= a < |rest| ==> rest[a] in rest;
    }
  }

  /** The warning loop, run step by step as the `forEach` does. */
  method CheckEntries(cs: seq<Value>) returns (warned: seq<nat>, threw: bool)
    ensures Scan(warned, threw) == ScanFrom(cs, 0)
  {
    warned := [];
    var i := 0;
    while i < |cs|
      invariant 0 <= i <= |cs|
      invariant ScanFrom(cs, 0) == Scan(warned + ScanFrom(cs, i).warned, ScanFrom(cs, i).threw)
    {
      if Nullish(cs[i]) {
        return warned, true;
      }
      if Incomplete(cs[i]) {
        warned := warned + [i];
      }
      i := i + 1;
    }
    threw := false;
  }

  /** The whole hook, as a function of the response. */
  function LoadManifest(resp: Response): (r: Loaded)
    ensures r.error.Some? ==> r.components == []
    ensures r.error.None? ==> resp.ok && resp.body.Some? && WellShaped(resp.body.value)
    ensures r.error.None? ==> forall k :: 0 <= k < |r.warned| ==> r.warned[k] < |r.components|
  {
    if !resp.ok then Loaded([], [], Some(FetchFailed(resp.status, resp.statusText)))
    else if resp.body.None? then Loaded([], [], Some(BodyNotJson))
    else
      var data := resp.body.value;
      if Nullish(data) then Loaded([], [], Some(PropertyOfNullish("blocks")))
      else
        var blocks := Get(data, "blocks");
        if !Truthy(blocks) then Loaded([], [], Some(InvalidFormat))
        else
          var list := Get(blocks, "data");
          if !list.Arr? then Loaded([], [], Some(InvalidFormat))
          else
            var scan := ScanFrom(list.items, 0);
            if scan.threw then Loaded([], scan.warned, Some(PropertyOfNullish("name")))
            else Loaded(list.items, scan.warned, None)
  }

  /** The body has `blocks` truthy and `blocks.data` an array. */
  predicate WellShaped(data: Value) {
    && !Nullish(data)
    && Truthy(Get(data, "blocks"))
    && Get(Get(data, "blocks"), "data").Arr?
  }

  function Entries(data: Value): seq<Value>
    requires WellShaped(data)
  {
    Get(Get(data, "blocks"), "data").items
  }

  /** A failed request gives an error naming the status and status text, and no list. */
  lemma NonOkResponseFails(resp: Response)
    requires !resp.ok
    ensures LoadManifest(resp).components == []
    ensures LoadManifest(resp).error == Some(FetchFailed(resp.status, resp.statusText))
    ensures Contains(Message(LoadManifest(resp).error.value), IntText(resp.status))
    ensures Contains(Message(LoadManifest(resp).error.value), resp.statusText)
  {
    FetchMessageParts(resp.status, resp.statusText);
  }

  lemma FetchMessageParts(status: int, text: string)
    ensures Contains(Message(FetchFailed(status, text)), IntText(status))
    ensures Contains(Message(FetchFailed(status, text)), text)
  {
    var n := IntText(status);
    var m := FetchFailedPrefix + n + " " + text;
    assert Message(FetchFailed(status, text)) == m;
    var p := |FetchFailedPrefix|;
    assert m[p..p + |n|] == n;
    assert m[|m| - |text|..|m|] == text;
  }

  /** A body with falsy `blocks` or non-array `blocks.data` is "Invalid response format". */
  lemma MalformedBodyFails(resp: Response)
    requires resp.ok && resp.body.Some? && !Nullish(resp.body.value)
    requires !WellShaped(resp.body.value)
    ensures LoadManifest(resp) == Loaded([], [], Some(InvalidFormat))
    ensures Message(InvalidFormat) == "Invalid response format: missing blocks.data array"
  {
  }

  /** Whatever the hook throws, it leaves the list empty. */
  lemma ErrorLeavesNoComponents(resp: Response)
    ensures LoadManifest(resp).error.Some? ==> LoadManifest(resp).components == []
    ensures !resp.ok || resp.body.None? ==> LoadManifest(resp).warned == []
  {
  }

  /**
   * The hook succeeds exactly on an ok, well-shaped response without null
   * entries; the list is then `blocks.data` unchanged (nothing is dropped),
   * and the warnings are the indices of the incomplete entries, in order.
   */
  lemma LoadSucceeds(resp: Response)
    ensures LoadManifest(resp).error.None? <==>
      && resp.ok && resp.body.Some? && WellShaped(resp.body.value)
      && forall k :: 0 <= k < |Entries(resp.body.value)| ==> !Nullish(Entries(resp.body.value)[k])
    ensures LoadManifest(resp).error.None? ==>
      && LoadManifest(resp).components == Entries(resp.body.value)
      && (forall k :: k in LoadManifest(resp).warned <==>
            0 <= k < |Entries(resp.body.value)| && Incomplete(Entries(resp.body.value)[k]))
      && (forall a, b :: 0 <= a < b < |LoadManifest(resp).warned| ==>
            LoadManifest(resp).warned[a] < LoadManifest(resp).warned[b])
  {
    if resp.ok && resp.body.Some? && WellShaped(resp.body.value) {
      var cs := Entries(resp.body.value);
      ScanThrows(cs, 0);
      ScanWarnings(cs, 0);
      ScanInOrder(cs, 0);
      if !ScanFrom(cs, 0).threw {
        forall k | 0 <= k < |cs|
          ensures ReachedFrom(cs, 0, k)
        {
        }
      }
    }
  }

  /** `{ blocks: { data: [] } }` is no error: the run proceeds with no components. */
  lemma EmptyManifestIsNoError(status: int, text: string)
    ensures LoadManifest(Response(true, status, text,
      Some(Obj(map["blocks" := Obj(map["data" := Arr([])])])))) == Loaded([], [], None)
  {
  }
}
