/** Plugin tool names, and the artifacts one tool result may carry. */
module Mcp {
  import opened Wrappers

  // ---- Namespaced tool names.

  function Namespaced(server: string, tool: string): string {
    "mcp__" + server + "__" + tool
  }

  predicate SeparatorAt(s: string, i: nat) {
    i + 1 < |s| && s[i] == '_' && s[i + 1] == '_'
  }

  /** The first "__" at or after `i`. */
  function FindSeparator(s: string, i: nat): (at: Option<nat>)
    ensures at.Some? ==> i <= at.value && SeparatorAt(s, at.value) && forall j | i <= j < at.value :: !SeparatorAt(s, j)
    ensures at.None? ==> forall j | i <= j :: !SeparatorAt(s, j)
    decreases |s| - i
  {
    if i + 1 >= |s| then None else if SeparatorAt(s, i) then Some(i) else FindSeparator(s, i + 1)
  }

  function SplitNamespaced(name: string): Option<(string, string)> {
    if !("mcp__" <= name) then None
    else
      var rest := name[5..];
      var at := FindSeparator(rest, 0);
      if at.None? then None
      else
        var server, tool := rest[..at.value], rest[at.value + 2..];
        if server != "" && tool != "" then Some((server, tool)) else None
  }

  /** A server name the separator cannot be confused with. */
  predicate IsUnambiguous(server: string) {
    && server != "" && server[|server| - 1] != '_'
    && forall i | 0 <= i < |server| :: !SeparatorAt(server, i)
  }

  /** Splitting undoes namespacing exactly for a tool with a name and a server whose name is unambiguous. */
  lemma SplitRoundTrip(server: string, tool: string)
    ensures SplitNamespaced(Namespaced(server, tool)) == Some((server, tool)) <==> IsUnambiguous(server) && tool != ""
  {
    var name := Namespaced(server, tool);
    var rest := server + "__" + tool;
    assert name[5..] == rest && "mcp__" <= name;
    assert SeparatorAt(rest, |server|);
    var at := FindSeparator(rest, 0);
    assert forall i | 0 <= i < |server| - 1 :: SeparatorAt(rest, i) <==> SeparatorAt(server, i);
    if server != "" {
      assert SeparatorAt(rest, |server| - 1) <==> server[|server| - 1] == '_';
    }
    assert rest[..|server|] == server && rest[|server| + 2..] == tool;
  }

  /** Joining what a split produced gives the name back. */
  lemma RejoinSplit(name: string)
    requires SplitNamespaced(name).Some?
    ensures var (server, tool) := SplitNamespaced(name).value;
            Namespaced(server, tool) == name && server != "" && tool != ""
  {
    var rest := name[5..];
    var at := FindSeparator(rest, 0).value;
    assert rest == rest[..at] + "__" + rest[at + 2..];
    assert name == "mcp__" + rest;
  }

  // ---- Artifact caps.

  type Bytes = seq<bv8>

  const MAX_ARTIFACTS: nat := 8
  const MAX_ARTIFACT_BYTES: nat := 10 * 1024 * 1024

  function TotalBytes(images: seq<Bytes>): nat {
    if images == [] then 0 else TotalBytes(images[..|images| - 1]) + |images[|images| - 1]|
  }

  lemma TotalBytesAppend(images: seq<Bytes>, image: Bytes)
    ensures TotalBytes(images + [image]) == TotalBytes(images) + |image|
  {
    assert (images + [image])[..|images|] == images;
  }

  predicate HasRoom(kept: seq<Bytes>, image: Bytes) {
    |kept| < MAX_ARTIFACTS && TotalBytes(kept) + |image| <= MAX_ARTIFACT_BYTES
  }

  /** First come, first kept: an image is kept if those kept before it leave it room. */
  function FirstComers(images: seq<Bytes>): seq<Bytes> {
    if images == [] then []
    else
      var before, image := FirstComers(images[..|images| - 1]), images[|images| - 1];
      if HasRoom(before, image) then before + [image] else before
  }

  lemma FirstComersNext(images: seq<Bytes>, i: nat)
    requires i < |images|
    ensures var before := FirstComers(images[..i]);
            FirstComers(images[..i + 1]) == if HasRoom(before, images[i]) then before + [images[i]] else before
  {
    assert images[..i + 1][..i] == images[..i];
  }

  lemma {:induction false} FullStaysFull(images: seq<Bytes>, i: nat)
    requires i <= |images| && |FirstComers(images[..i])| == MAX_ARTIFACTS
    ensures FirstComers(images) == FirstComers(images[..i])
    decreases |images| - i
  {
    if i == |images| {
      assert images[..i] == images;
    } else {
      FirstComersNext(images, i);
      FullStaysFull(images, i + 1);
    }
  }

  /**
    `kept` is `images` at the strictly increasing positions `at`, respects both caps and is
    maximal: all eight places are used, or every image left behind exceeds the bytes left over.
   */
  ghost predicate MaximalWithinCaps(kept: seq<Bytes>, images: seq<Bytes>, at: seq<nat>) {
    && |at| == |kept| <= MAX_ARTIFACTS && TotalBytes(kept) <= MAX_ARTIFACT_BYTES
    && (forall i | 0 <= i < |at| :: at[i] < |images| && kept[i] == images[at[i]])
    && (forall i, j | 0 <= i < j < |at| :: at[i] < at[j])
    && (|kept| == MAX_ARTIFACTS || forall i | 0 <= i < |images| && i !in at :: !HasRoom(kept, images[i]))
  }

  lemma OneMoreImage(kept: seq<Bytes>, images: seq<Bytes>, at: seq<nat>, image: Bytes)
    requires MaximalWithinCaps(kept, images, at)
    ensures if HasRoom(kept, image) then MaximalWithinCaps(kept + [image], images + [image], at + [|images|])
            else MaximalWithinCaps(kept, images + [image], at)
  {
    TotalBytesAppend(kept, image);
    var all := images + [image];
    if HasRoom(kept, image) {
      var at' := at + [|images|];
      forall i | 0 <= i < |all| && i !in at' ensures !HasRoom(kept + [image], all[i]) {
        assert at'[|at|] == |images| && i < |images|;
        assert i !in at && all[i] == images[i];
      }
    }
  }

  lemma {:induction false} FirstComersAreMaximal(images: seq<Bytes>) returns (at: seq<nat>)
    ensures MaximalWithinCaps(FirstComers(images), images, at)
  {
    at := [];
    if images != [] {
      var n := |images| - 1;
      at := FirstComersAreMaximal(images[..n]);
      OneMoreImage(FirstComers(images[..n]), images[..n], at, images[n]);
      assert images[..n] + [images[n]] == images;
      if HasRoom(FirstComers(images[..n]), images[n]) {
        at := at + [n];
      }
    }
  }

  /** Keep what fits, in order, and count what was left behind. */
  method WithinCaps(images: seq<Bytes>) returns (kept: seq<Bytes>, dropped: nat)
    ensures kept == FirstComers(images) && |kept| + dropped == |images|
  {
    kept := [];
    var budget := MAX_ARTIFACT_BYTES;
    for i := 0 to |images|
      invariant |kept| <= MAX_ARTIFACTS && TotalBytes(kept) + budget == MAX_ARTIFACT_BYTES && budget >= 0
      invariant |kept| <= i && kept == FirstComers(images[..i])
    {
      if |kept| == MAX_ARTIFACTS {
        FullStaysFull(images, i);
        break;
      }
      FirstComersNext(images, i);
      if |images[i]| > budget {
        continue;
      }
      budget := budget - |images[i]|;
      TotalBytesAppend(kept, images[i]);
      kept := kept + [images[i]];
    }
    dropped := |images| - |kept|;
    assert images[..|images|] == images;
  }
}
