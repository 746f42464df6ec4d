/** Naming workspaces after their paths: the shortest trailing segments that tell them apart. */
module Workspaces {
  import opened Wrappers
  import opened Strings

  /** A path as the standard library splits it; paths are equal when their components are. */
  datatype Component = Prefix(name: string) | RootDir | CurDir | ParentDir | Normal(segment: string)

  /** A normal component is a non-empty name without a separator. */
  predicate IsPath(p: seq<Component>) {
    forall i | 0 <= i < |p| && p[i].Normal? :: p[i].segment != "" && '/' !in p[i].segment
  }

  type Path = p: seq<Component> | IsPath(p) witness []

  type Segments = seq<string>

  predicate AreSegments(c: Segments) {
    forall i | 0 <= i < |c| :: c[i] != "" && '/' !in c[i]
  }

  function SegmentsOf(p: seq<Component>): (c: Segments)
    requires IsPath(p)
    ensures AreSegments(c)
  {
    if p == [] then []
    else
      assert p[0].Normal? ==> p[0].segment != "" && '/' !in p[0].segment;
      (if p[0].Normal? then [p[0].segment] else []) + SegmentsOf(p[1..])
  }

  datatype Workspace = Workspace(name: string, path: Path)

  datatype WorkspaceError = DuplicatePath(path: Path) | Empty(path: Path)

  /** The last `n` segments, or all of them. */
  function Suffix(c: Segments, n: nat): Segments {
    if |c| <= n then c else c[|c| - n..]
  }

  function Join(c: Segments): string {
    if c == [] then "" else if |c| == 1 then c[0] else c[0] + "/" + Join(c[1..])
  }

  function Min(a: nat, b: nat): nat {
    if a < b then a else b
  }

  function Max(a: nat, b: nat): nat {
    if a < b then b else a
  }

  // ---- Names determine segments.

  lemma FirstSlash(a: string, b: string, x: string, y: string)
    requires '/' !in a && '/' !in b && a + "/" + x == b + "/" + y
    ensures a == b && x == y
  {
    var u := a + "/" + x;
    assert u[|a|] == '/' && u[|b|] == '/';
    assert forall i | 0 <= i < |a| :: u[i] == a[i];
    assert forall i | 0 <= i < |b| :: u[i] == b[i];
    assert |a| == |b|;
    assert a == u[..|a|] && b == u[..|a|];
    assert x == u[|a| + 1..] && y == u[|a| + 1..];
  }

  lemma NoSlashInOne(c: Segments, d: Segments)
    requires AreSegments(c) && AreSegments(d) && |c| == 1 && |d| > 1
    ensures Join(c) != Join(d)
  {
    assert Join(d)[|d[0]|] == '/';
  }

  lemma {:induction false} JoinInjective(c: Segments, d: Segments)
    requires AreSegments(c) && AreSegments(d) && c != [] && d != []
    ensures Join(c) == Join(d) <==> c == d
  {
    if Join(c) == Join(d) {
      if |c| == 1 && |d| > 1 {
        NoSlashInOne(c, d);
      } else if |d| == 1 && |c| > 1 {
        NoSlashInOne(d, c);
      } else if |c| > 1 {
        FirstSlash(c[0], d[0], Join(c[1..]), Join(d[1..]));
        JoinInjective(c[1..], d[1..]);
        assert c == [c[0]] + c[1..] && d == [d[0]] + d[1..];
      }
    }
  }

  // ---- Shared suffixes.

  /** The length of the longest suffix two segment lists share. */
  function Shared(c: Segments, d: Segments): nat {
    if c == [] || d == [] || c[|c| - 1] != d[|d| - 1] then 0 else 1 + Shared(c[..|c| - 1], d[..|d| - 1])
  }

  predicate EndAlike(c: Segments, d: Segments, n: nat) {
    n <= |c| && n <= |d| && c[|c| - n..] == d[|d| - n..]
  }

  /** Two lists have a suffix of length `n` in common exactly when they share at least `n` segments. */
  lemma {:induction false} SharedIsLongest(c: Segments, d: Segments, n: nat)
    ensures n <= Shared(c, d) <==> EndAlike(c, d, n)
  {
    if n > 0 && c != [] && d != [] {
      var c', d' := c[..|c| - 1], d[..|d| - 1];
      SharedIsLongest(c', d', n - 1);
      if n <= |c| && n <= |d| {
        assert c[|c| - n..] == c'[|c'| - (n - 1)..] + [c[|c| - 1]];
        assert d[|d| - n..] == d'[|d'| - (n - 1)..] + [d[|d| - 1]];
      }
    }
  }

  lemma {:induction false} SharedIsSymmetric(c: Segments, d: Segments)
    ensures Shared(c, d) == Shared(d, c) <= |c|
  {
    if c != [] && d != [] {
      SharedIsSymmetric(c[..|c| - 1], d[..|d| - 1]);
    }
  }

  /** The most segments path `i` shares with any of the first `n` others. */
  function LongestShared(comps: seq<Segments>, i: nat, n: nat): nat
    requires i < |comps| && n <= |comps|
  {
    if n == 0 then 0
    else Max(LongestShared(comps, i, n - 1), if n - 1 == i then 0 else Shared(comps[i], comps[n - 1]))
  }

  lemma {:induction false} LongestSharedIsMax(comps: seq<Segments>, i: nat, n: nat)
    requires i < |comps| && n <= |comps|
    ensures forall j | 0 <= j < n && j != i :: Shared(comps[i], comps[j]) <= LongestShared(comps, i, n)
    ensures LongestShared(comps, i, n) > 0 ==>
              exists j | 0 <= j < n && j != i :: Shared(comps[i], comps[j]) == LongestShared(comps, i, n)
  {
    if n > 0 { LongestSharedIsMax(comps, i, n - 1); }
  }

  /** How many trailing segments path `i` is named by: one more than it shares, or all it has. */
  function FinalDepth(comps: seq<Segments>, i: nat): nat
    requires i < |comps|
  {
    Min(|comps[i]|, 1 + LongestShared(comps, i, |comps|))
  }

  function NameOf(c: Segments, depth: nat): string {
    Join(Suffix(c, depth))
  }

  // ---- The loop.

  /** Depths after `k` rounds of bumping. */
  ghost predicate AtRound(comps: seq<Segments>, depth: seq<nat>, k: nat) {
    && |depth| == |comps|
    && forall i | 0 <= i < |comps| :: depth[i] == Min(k + 1, FinalDepth(comps, i))
  }

  predicate Collides(names: seq<string>, i: nat)
    requires i < |names|
  {
    exists j | 0 <= j < |names| :: j != i && names[j] == names[i]
  }

  ghost predicate Names(comps: seq<Segments>, depth: seq<nat>, names: seq<string>) {
    && |names| == |depth| == |comps|
    && forall i | 0 <= i < |comps| :: names[i] == NameOf(comps[i], depth[i])
  }

  ghost predicate AllNamed(comps: seq<Segments>) {
    forall i | 0 <= i < |comps| :: comps[i] != [] && AreSegments(comps[i])
  }

  lemma SuffixIsSegments(c: Segments, n: nat)
    requires AreSegments(c) && c != [] && n > 0
    ensures AreSegments(Suffix(c, n)) && Suffix(c, n) != []
  {
  }

  /** At depths within the lengths, equal names mean equal depths and a shared suffix that long. */
  lemma EqualNames(c: Segments, d: Segments, m: nat, n: nat)
    requires AreSegments(c) && AreSegments(d) && 0 < m <= |c| && 0 < n <= |d|
    ensures NameOf(c, m) == NameOf(d, n) <==> m == n && n <= Shared(c, d)
  {
    SuffixIsSegments(c, m);
    SuffixIsSegments(d, n);
    JoinInjective(Suffix(c, m), Suffix(d, n));
    assert |Suffix(c, m)| == m && |Suffix(d, n)| == n;
    SharedIsLongest(c, d, n);
  }

  /** A path whose depth is not final collides: whoever it shares most with is at the same depth. */
  lemma UnfinishedCollides(comps: seq<Segments>, depth: seq<nat>, names: seq<string>, k: nat, i: nat)
    requires AllNamed(comps) && AtRound(comps, depth, k) && Names(comps, depth, names) && i < |comps|
    requires depth[i] < FinalDepth(comps, i)
    ensures Collides(names, i)
  {
    var most := LongestShared(comps, i, |comps|);
    LongestSharedIsMax(comps, i, |comps|);
    var j :| 0 <= j < |comps| && j != i && Shared(comps[i], comps[j]) == most;
    LongestSharedIsMax(comps, j, |comps|);
    SharedIsSymmetric(comps[i], comps[j]);
    SharedIsSymmetric(comps[j], comps[i]);
    assert most <= |comps[j]| && most <= LongestShared(comps, j, |comps|);
    assert depth[i] == k + 1 && depth[j] == k + 1;
    EqualNames(comps[j], comps[i], k + 1, k + 1);
    assert names[j] == names[i];
  }

  /** A path at its final depth collides only if it has no further segment. */
  lemma FinishedIsClear(comps: seq<Segments>, depth: seq<nat>, names: seq<string>, k: nat, i: nat)
    requires AllNamed(comps) && AtRound(comps, depth, k) && Names(comps, depth, names) && i < |comps|
    requires depth[i] == FinalDepth(comps, i) && Collides(names, i)
    ensures depth[i] == |comps[i]|
  {
    var j :| 0 <= j < |names| && j != i && names[j] == names[i];
    LongestSharedIsMax(comps, i, |comps|);
    EqualNames(comps[i], comps[j], depth[i], depth[j]);
  }

  /** So a round bumps exactly the paths whose depth is not final. */
  lemma BumpsExactlyTheUnfinished(comps: seq<Segments>, depth: seq<nat>, names: seq<string>, k: nat, i: nat)
    requires AllNamed(comps) && AtRound(comps, depth, k) && Names(comps, depth, names) && i < |comps|
    ensures Collides(names, i) && depth[i] < |comps[i]| <==> k + 1 < FinalDepth(comps, i)
  {
    if depth[i] < FinalDepth(comps, i) {
      UnfinishedCollides(comps, depth, names, k, i);
    } else if Collides(names, i) {
      FinishedIsClear(comps, depth, names, k, i);
    }
  }

  method NamesAt(comps: seq<Segments>, depth: seq<nat>) returns (names: seq<string>)
    requires |depth| == |comps|
    ensures Names(comps, depth, names)
  {
    names := [];
    for i := 0 to |comps|
      invariant |names| == i && forall j | 0 <= j < i :: names[j] == NameOf(comps[j], depth[j])
    {
      names := names + [NameOf(comps[i], depth[i])];
    }
  }

  /** Bump every colliding path that has a segment left; `bumped` says whether there was one. */
  method BumpRound(comps: seq<Segments>, depth: seq<nat>, names: seq<string>, ghost k: nat)
    returns (next: seq<nat>, bumped: bool)
    requires AllNamed(comps) && AtRound(comps, depth, k) && Names(comps, depth, names)
    ensures AtRound(comps, next, k + 1)
    ensures bumped <==> exists i | 0 <= i < |comps| :: k + 1 < FinalDepth(comps, i)
  {
    next, bumped := depth, false;
    for i := 0 to |comps|
      invariant |next| == |comps|
      invariant forall j | 0 <= j < i :: next[j] == Min(k + 2, FinalDepth(comps, j))
      invariant forall j | i <= j < |comps| :: next[j] == depth[j]
      invariant bumped <==> exists j | 0 <= j < i :: k + 1 < FinalDepth(comps, j)
    {
      BumpsExactlyTheUnfinished(comps, depth, names, k, i);
      if Collides(names, i) && depth[i] < |comps[i]| {
        next := next[i := next[i] + 1];
        bumped := true;
      }
    }
  }

  function LongestLength(comps: seq<Segments>): (n: nat)
    ensures forall i | 0 <= i < |comps| :: |comps[i]| <= n
  {
    if comps == [] then 0 else Max(LongestLength(comps[..|comps| - 1]), |comps[|comps| - 1]|)
  }

  /** Lengthen names until no round bumps any: each ends at its closed-form depth. */
  method ChooseNames(comps: seq<Segments>) returns (names: seq<string>)
    requires AllNamed(comps)
    ensures |names| == |comps|
    ensures forall i | 0 <= i < |comps| :: names[i] == NameOf(comps[i], FinalDepth(comps, i))
  {
    var depth := seq(|comps|, _ => 1);
    ghost var k := 0;
    while true
      invariant AtRound(comps, depth, k)
      decreases LongestLength(comps) - k
    {
      names := NamesAt(comps, depth);
      var next, bumped := BumpRound(comps, depth, names, k);
      depth := next;
      if !bumped {
        return;
      }
      k := k + 1;
    }
  }

  // ---- The whole operation.

  ghost predicate Distinct(paths: seq<Path>) {
    forall i, j | 0 <= i < j < |paths| :: paths[i] != paths[j]
  }

  function Comps(paths: seq<Path>): seq<Segments> {
    seq(|paths|, i requires 0 <= i < |paths| => SegmentsOf(paths[i]))
  }

  method DeriveWorkspaces(paths: seq<Path>) returns (r: Result<seq<Workspace>, WorkspaceError>)
    ensures r.Err? && r.error.DuplicatePath? <==> !Distinct(paths)
    ensures r.Err? && r.error.Empty? <==> Distinct(paths) && exists i | 0 <= i < |paths| :: SegmentsOf(paths[i]) == []
    ensures r.Err? && r.error.DuplicatePath? ==> exists i, j | 0 <= i < j < |paths| :: paths[i] == r.error.path && paths[j] == r.error.path
    ensures r.Err? && r.error.Empty? ==> r.error.path in paths && SegmentsOf(r.error.path) == []
    ensures r.Ok? ==>
              && |r.value| == |paths|
              && forall i | 0 <= i < |paths| ::
                   && r.value[i].path == paths[i]
                   && r.value[i].name == NameOf(SegmentsOf(paths[i]), FinalDepth(Comps(paths), i))
  {
    for i := 0 to |paths|
      invariant forall a, b | 0 <= a < i && a < b < |paths| :: paths[a] != paths[b]
    {
      for j := i + 1 to |paths|
        invariant forall b | i < b < j :: paths[i] != paths[b]
      {
        if paths[i] == paths[j] {
          return Err(DuplicatePath(paths[i]));
        }
      }
    }
    var comps := Comps(paths);
    assert forall j | 0 <= j < |paths| :: SegmentsOf(paths[j]) == comps[j];
    for i := 0 to |paths|
      invariant forall j | 0 <= j < i :: SegmentsOf(paths[j]) != []
    {
      if comps[i] == [] {
        return Err(Empty(paths[i]));
      }
    }
    var names := ChooseNames(comps);
    r := Ok(seq(|paths|, i requires 0 <= i < |paths| && |names| == |paths| => Workspace(names[i], paths[i])));
  }

  // ---- What the closed form means.

  /** The name is the shortest suffix that no other path ends in, wherever the path has such a suffix. */
  lemma NameIsShortestDistinguishing(comps: seq<Segments>, i: nat, n: nat)
    requires AllNamed(comps) && i < |comps| && 0 < n <= |comps[i]|
    requires LongestShared(comps, i, |comps|) < |comps[i]|
    ensures FinalDepth(comps, i) <= n <==>
            forall j | 0 <= j < |comps| && j != i :: !EndAlike(comps[i], comps[j], n)
  {
    LongestSharedIsMax(comps, i, |comps|);
    forall j | 0 <= j < |comps| ensures n <= Shared(comps[i], comps[j]) <==> EndAlike(comps[i], comps[j], n) {
      SharedIsLongest(comps[i], comps[j], n);
    }
  }

  lemma {:induction false} SplitJoin(c: Segments)
    requires AreSegments(c) && c != []
    ensures Split(Join(c)) == c
  {
    if |c| == 1 {
      NoSlashIsOne(c[0]);
    } else {
      SplitJoin(c[1..]);
      SplitAround(c[0], Join(c[1..]));
    }
  }

  /** Read back, a name is the last segments of its path, in the path's order and as many as its depth. */
  lemma NameIsTheTail(comps: seq<Segments>, i: nat)
    requires AllNamed(comps) && i < |comps|
    ensures var c, n := comps[i], FinalDepth(comps, i);
            var name := Split(NameOf(c, n));
            |name| == n <= |c| && forall k | 0 <= k < n :: name[k] == c[|c| - n + k]
  {
    SuffixIsSegments(comps[i], FinalDepth(comps, i));
    SplitJoin(Suffix(comps[i], FinalDepth(comps, i)));
  }

  /** And as text: the name is the path's segments joined by slashes, or what follows one of those slashes. */
  lemma NameEndsThePath(comps: seq<Segments>, i: nat)
    requires AllNamed(comps) && i < |comps|
    ensures var whole, name := Join(comps[i]), NameOf(comps[i], FinalDepth(comps, i));
            name == whole || (|name| < |whole| && whole[|whole| - |name| - 1..] == "/" + name)
  {
    var c, n := comps[i], FinalDepth(comps, i);
    if n < |c| { JoinEndsWithTail(c, |c| - n); }
  }

  lemma {:induction false} JoinEndsWithTail(c: Segments, from: nat)
    requires 0 < from < |c|
    ensures |Join(c[from..])| < |Join(c)| && Join(c)[|Join(c)| - |Join(c[from..])| - 1..] == "/" + Join(c[from..])
  {
    var tail := Join(c[1..]);
    assert Join(c) == c[0] + "/" + tail;
    if from == 1 {
      assert (c[0] + ("/" + tail))[|c[0]|..] == "/" + tail;
    } else {
      JoinEndsWithTail(c[1..], from - 1);
      assert c[1..][from - 1..] == c[from..];
      var k := |Join(c[from..])| + 1;
      assert Join(c)[|Join(c)| - k..] == tail[|tail| - k..];
    }
  }

  /** A path's segments are those before a component, the component itself if it is a normal one, and those after it. */
  lemma {:induction false} SegmentsInOrder(p: Path, i: nat)
    requires i < |p|
    ensures SegmentsOf(p) ==
            SegmentsOf(p[..i]) + (if p[i].Normal? then [p[i].segment] else []) + SegmentsOf(p[i + 1..])
  {
    var q: Path := p[1..];
    if i == 0 {
      assert p[..0] == [];
    } else {
      SegmentsInOrder(q, i - 1);
      assert q[..i - 1] == p[..i][1..] && q[i..] == p[i + 1..];
    }
  }

  lemma {:induction false} NoNormalNoSegments(p: Path)
    ensures SegmentsOf(p) == [] <==> forall k | 0 <= k < |p| :: !p[k].Normal?
  {
    if p != [] {
      var q: Path := p[1..];
      NoNormalNoSegments(q);
      assert forall k | 0 <= k < |q| :: q[k] == p[k + 1];
      assert p[0].Normal? || (SegmentsOf(p) == SegmentsOf(q));
      if !p[0].Normal? && SegmentsOf(q) == [] {
        forall k | 0 <= k < |p| ensures !p[k].Normal? { if k > 0 { assert p[k] == q[k - 1]; } }
      }
    }
  }

  /** Two names coincide exactly when the two paths have the same normal components. */
  lemma NamesCoincideOnlyOnEqualSegments(comps: seq<Segments>, i: nat, j: nat)
    requires AllNamed(comps) && i < |comps| && j < |comps| && i != j
    ensures NameOf(comps[i], FinalDepth(comps, i)) == NameOf(comps[j], FinalDepth(comps, j)) <==> comps[i] == comps[j]
  {
    LongestSharedIsMax(comps, i, |comps|);
    LongestSharedIsMax(comps, j, |comps|);
    SharedIsSymmetric(comps[i], comps[j]);
    EqualNames(comps[i], comps[j], FinalDepth(comps, i), FinalDepth(comps, j));
    SharedIsLongest(comps[i], comps[j], |comps[i]|);
    if comps[i] == comps[j] {
      assert FinalDepth(comps, i) == |comps[i]| && FinalDepth(comps, j) == |comps[j]|;
    }
  }

  lemma OneSegment(segment: string)
    requires segment != "" && '/' !in segment
    ensures SegmentsOf([Normal(segment)]) == [segment] && SegmentsOf([RootDir, Normal(segment)]) == [segment]
  {
    assert [Normal(segment)][1..] == [] && [RootDir, Normal(segment)][1..] == [Normal(segment)];
    assert SegmentsOf([]) == [];
  }

  /** Names do coincide: a path from the root and the same path from here are told apart by no name. */
  lemma RootedTwinsShareAName(segment: string, paths: seq<Path>)
    requires segment != "" && '/' !in segment && paths == [[RootDir, Normal(segment)], [Normal(segment)]]
    ensures Distinct(paths) && AllNamed(Comps(paths))
    ensures var comps := Comps(paths);
            NameOf(comps[0], FinalDepth(comps, 0)) == NameOf(comps[1], FinalDepth(comps, 1))
  {
    OneSegment(segment);
    var comps := Comps(paths);
    assert comps == [[segment], [segment]];
    assert |paths[0]| != |paths[1]|;
    NamesCoincideOnlyOnEqualSegments(comps, 0, 1);
  }
}
