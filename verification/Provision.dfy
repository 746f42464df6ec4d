/** Turning selected repositories into checkout steps, each with a directory spelled like no other. */
module Provision {
  import opened Wrappers
  import opened Strings
  import opened Decimals
  import W = Workspaces

  datatype RepoConfig = RepoConfig(url: string, gitRef: Option<string>, dir: Option<string>)

  datatype StepParam = StepParam(key: string, value: string)

  datatype ProvisionStep = ProvisionStep(name: string, uses: string, with: seq<StepParam>)

  datatype ProvisionError = EmptyUrl | NoDirectoryName(url: string) | EscapingDirectory(base: string)

  // ---- The directory a repository asks for.

  /** What follows the first "://", or everything. */
  function AfterScheme(url: string): string {
    if |url| < 3 then url else AfterSchemeFrom(url, 0)
  }

  function AfterSchemeFrom(url: string, i: nat): string
    requires i + 3 <= |url|
    decreases |url| - i
  {
    if url[i..i + 3] == "://" then url[i + 3..]
    else if i + 3 == |url| then url
    else AfterSchemeFrom(url, i + 1)
  }

  function TrimSlashes(s: string): string {
    if s != [] && s[|s| - 1] == '/' then TrimSlashes(s[..|s| - 1]) else s
  }

  function TrimDotGit(s: string): string {
    if |s| >= 4 && s[|s| - 4..] == ".git" then TrimDotGit(s[..|s| - 4]) else s
  }

  /** What follows the last slash, or everything. */
  function LastSegment(s: string): string {
    if s == [] || s[|s| - 1] == '/' then [] else LastSegment(s[..|s| - 1]) + [s[|s| - 1]]
  }

  /** Whether some slash-separated segment is "..". */
  predicate HasParentDir(s: string) {
    LastSegment(s) == ".." || exists i | 0 <= i < |s| :: s[i] == '/' && LastSegment(s[..i]) == ".."
  }

  predicate Escapes(dir: string) {
    (dir != [] && dir[0] == '/') || HasParentDir(dir)
  }

  function RequestedDir(repo: RepoConfig): string {
    if repo.dir.Some? then Trim(repo.dir.value) else ""
  }

  function BaseOf(repo: RepoConfig): Result<string, ProvisionError> {
    var url := Trim(repo.url);
    if url == "" then Err(EmptyUrl)
    else
      var derived := TrimDotGit(LastSegment(TrimSlashes(AfterScheme(url))));
      var base := if RequestedDir(repo) != "" then RequestedDir(repo) else derived;
      if base == "" then Err(NoDirectoryName(url))
      else if Escapes(base) then Err(EscapingDirectory(base))
      else Ok(base)
  }

  // ---- Telling directories apart.

  /** The candidates in the order they are tried: the base, then base-2, base-3 and so on. */
  function Candidate(base: string, k: nat): string {
    if k == 0 then base else base + "-" + Decimal(k + 1)
  }

  lemma CandidatesDiffer(base: string, j: nat, k: nat)
    ensures Candidate(base, j) == Candidate(base, k) <==> j == k
  {
    var a, b := Candidate(base, j), Candidate(base, k);
    if j > 0 && k > 0 && a == b {
      assert a[|base| + 1..] == Decimal(j + 1) && b[|base| + 1..] == Decimal(k + 1);
      DecimalInjective(j + 1, k + 1);
    }
  }

  lemma NumberedSegment(base: string, suffix: string, i: nat)
    requires i <= |suffix| && forall c | c in suffix :: c != '/'
    ensures LastSegment(base + suffix[..i]) == LastSegment(base) + suffix[..i]
  {
    if i > 0 {
      NumberedSegment(base, suffix, i - 1);
      var s := base + suffix[..i];
      assert s[..|s| - 1] == base + suffix[..i - 1] && suffix[..i] == suffix[..i - 1] + [suffix[i - 1]];
      assert suffix[i - 1] in suffix;
    } else {
      assert base + suffix[..0] == base;
    }
  }

  lemma LengtheningStaysInside(base: string, suffix: string)
    requires base != "" && !Escapes(base)
    requires '-' in suffix && forall c | c in suffix :: c != '/'
    ensures !Escapes(base + suffix)
  {
    var dir := base + suffix;
    NumberedSegment(base, suffix, |suffix|);
    assert suffix[..|suffix|] == suffix;
    assert '-' in LastSegment(dir) && LastSegment(dir) != "..";
    assert forall i | |base| <= i < |dir| :: dir[i] in suffix;
    forall i | 0 <= i < |dir| && dir[i] == '/' ensures LastSegment(dir[..i]) != ".." {
      assert dir[..i] == base[..i];
    }
  }

  /** A numbered variant stays inside the workspace if its base does. */
  lemma CandidateStaysInside(base: string, k: nat)
    requires base != "" && !Escapes(base)
    ensures !Escapes(Candidate(base, k))
  {
    if k > 0 {
      var suffix := "-" + Decimal(k + 1);
      assert suffix[0] in suffix && base + suffix == Candidate(base, k);
      LengtheningStaysInside(base, suffix);
    }
  }

  /** `dir` is the first candidate that is not taken. */
  ghost predicate FirstFree(base: string, dir: string, taken: seq<string>) {
    exists k: nat :: dir == Candidate(base, k) && dir !in taken && forall j: nat | j < k :: Candidate(base, j) in taken
  }

  /** Try candidates until one is free. Finitely many names are taken and candidates never repeat, so one is. */
  method PickDirectory(base: string, taken: seq<string>) returns (dir: string)
    ensures FirstFree(base, dir, taken)
  {
    dir := base;
    var n := 2;
    ghost var tried: set<string> := {};
    ghost var all := set t | t in taken;
    while dir in taken
      invariant n >= 2 && dir == Candidate(base, n - 2)
      invariant forall j: nat | j < n - 2 :: Candidate(base, j) in tried
      invariant forall t | t in tried :: t in taken && exists j: nat | j < n - 2 :: t == Candidate(base, j)
      decreases all - tried
    {
      if dir in tried {
        var j: nat :| j < n - 2 && dir == Candidate(base, j);
        CandidatesDiffer(base, j, n - 2);
      }
      assert dir in all - tried;
      tried := tried + {dir};
      dir := base + "-" + Decimal(n);
      n := n + 1;
    }
  }

  // ---- The whole operation.

  function StepFor(repo: RepoConfig, dir: string): ProvisionStep {
    var reference := if repo.gitRef.Some? then Trim(repo.gitRef.value) else "";
    ProvisionStep("checkout " + dir, "git_checkout",
                  [StepParam("url", Trim(repo.url)), StepParam("dir", dir)]
                  + if reference != "" then [StepParam("ref", reference)] else [])
  }

  /** The directories chosen so far, in order: each the first free candidate given those before it. */
  ghost predicate ChosenInOrder(repos: seq<RepoConfig>, dirs: seq<string>) {
    && |dirs| <= |repos|
    && forall i | 0 <= i < |dirs| :: Chosen(repos[i], dirs[i], dirs[..i])
  }

  ghost predicate Chosen(repo: RepoConfig, dir: string, taken: seq<string>) {
    BaseOf(repo).Ok? && FirstFree(BaseOf(repo).value, dir, taken)
  }

  method ProvisionFromRepos(repos: seq<RepoConfig>)
    returns (r: Result<seq<ProvisionStep>, ProvisionError>, ghost dirs: seq<string>)
    ensures r.Err? ==>
              exists i | 0 <= i < |repos| ::
                && BaseOf(repos[i]) == Err(r.error)
                && forall j | 0 <= j < i :: BaseOf(repos[j]).Ok?
    ensures r.Ok? ==>
              && |dirs| == |r.value| == |repos| && ChosenInOrder(repos, dirs)
              && forall i | 0 <= i < |repos| :: r.value[i] == StepFor(repos[i], dirs[i])
  {
    var taken: seq<string>, steps: seq<ProvisionStep> := [], [];
    for i := 0 to |repos|
      invariant |taken| == |steps| == i && ChosenInOrder(repos, taken)
      invariant forall j | 0 <= j < i :: steps[j] == StepFor(repos[j], taken[j])
    {
      var base := BaseOf(repos[i]);
      if base.Err? {
        assert forall j | 0 <= j < i :: Chosen(repos[j], taken[j], taken[..j]);
        return Err(base.error), [];
      }
      var dir := PickDirectory(base.value, taken);
      ChooseOneMore(repos, taken, dir);
      taken := taken + [dir];
      steps := steps + [StepFor(repos[i], dir)];
    }
    dirs := taken;
    r := Ok(steps);
  }

  lemma ChooseOneMore(repos: seq<RepoConfig>, dirs: seq<string>, dir: string)
    requires |dirs| < |repos| && ChosenInOrder(repos, dirs) && Chosen(repos[|dirs|], dir, dirs)
    ensures ChosenInOrder(repos, dirs + [dir])
  {
    var more := dirs + [dir];
    forall i | 0 <= i < |more| ensures Chosen(repos[i], more[i], more[..i]) {
      assert more[..i] == dirs[..i];
      if i < |dirs| { assert Chosen(repos[i], dirs[i], dirs[..i]); } else { assert dirs[..i] == dirs; }
    }
  }

  lemma BaseStaysInside(repo: RepoConfig)
    requires BaseOf(repo).Ok?
    ensures BaseOf(repo).value != "" && !Escapes(BaseOf(repo).value)
  {
  }

  /** The chosen directories are spelled pairwise differently, and are relative and free of "..". */
  lemma DirectoriesAreSafe(repos: seq<RepoConfig>, dirs: seq<string>)
    requires ChosenInOrder(repos, dirs)
    ensures forall i, j | 0 <= i < j < |dirs| :: dirs[i] != dirs[j]
    ensures forall i | 0 <= i < |dirs| :: !Escapes(dirs[i])
  {
    forall i, j | 0 <= i < j < |dirs| ensures dirs[i] != dirs[j] {
      assert Chosen(repos[j], dirs[j], dirs[..j]) && dirs[i] == dirs[..j][i];
    }
    forall i | 0 <= i < |dirs| ensures !Escapes(dirs[i]) {
      assert Chosen(repos[i], dirs[i], dirs[..i]);
      BaseStaysInside(repos[i]);
      var base := BaseOf(repos[i]).value;
      var k: nat :| dirs[i] == Candidate(base, k);
      CandidateStaysInside(base, k);
    }
  }

  // ---- Directories, not just their spellings.

  predicate Names(segment: string) {
    segment != "" && segment != "."
  }

  /** The directory a relative path without ".." leads to: its segments, where empty ones and "." lead nowhere. */
  function Directory(c: seq<string>): seq<string> {
    if c == [] then [] else (if Names(c[0]) then [c[0]] else []) + Directory(c[1..])
  }

  function DirectoryOf(path: string): seq<string> {
    Directory(Split(path))
  }

  /** No segment is empty or ".". */
  predicate IsCanonical(path: string) {
    forall i | 0 <= i < |Split(path)| :: Names(Split(path)[i])
  }

  lemma {:induction false} JoinSplit(s: string)
    ensures W.Join(Split(s)) == s
  {
    if s != "" {
      var c := Split(s[1..]);
      JoinSplit(s[1..]);
      assert s == [s[0]] + s[1..];
      if s[0] == '/' {
        assert ([""] + c)[1..] == c;
      } else {
        assert ([[s[0]] + c[0]] + c[1..])[1..] == c[1..];
      }
    }
  }

  lemma {:induction false} AllNamed(c: seq<string>)
    requires forall i | 0 <= i < |c| :: Names(c[i])
    ensures Directory(c) == c
  {
    if c != [] { AllNamed(c[1..]); }
  }

  /** A canonical spelling is the only canonical spelling of its directory. */
  lemma CanonicalSpellingsDiffer(a: string, b: string)
    requires IsCanonical(a) && IsCanonical(b)
    ensures DirectoryOf(a) == DirectoryOf(b) <==> a == b
  {
    AllNamed(Split(a));
    AllNamed(Split(b));
    JoinSplit(a);
    JoinSplit(b);
  }

  function Lengthened(c: seq<string>, suffix: string): seq<string>
    requires c != []
  {
    c[..|c| - 1] + [c[|c| - 1] + suffix]
  }

  /** One more character, or one more segment, in front. */
  lemma LengthenedBehind(ch: char, c: seq<string>, suffix: string)
    requires c != []
    ensures Lengthened([""] + c, suffix) == [""] + Lengthened(c, suffix)
    ensures var d := Lengthened(c, suffix);
            Lengthened([[ch] + c[0]] + c[1..], suffix) == [[ch] + d[0]] + d[1..]
  {
    var d, e := Lengthened(c, suffix), [[ch] + c[0]] + c[1..];
    if |c| == 1 {
      assert [ch] + c[0] + suffix == [ch] + (c[0] + suffix);
      assert e == [[ch] + c[0]] && d == [c[0] + suffix];
    } else {
      assert d[0] == c[0] && d[1..] == Lengthened(c[1..], suffix);
      assert Lengthened(e, suffix) == [e[0]] + Lengthened(c[1..], suffix);
    }
  }

  /** Text without a slash lengthens the last segment. */
  lemma {:induction false} SplitLonger(base: string, suffix: string)
    requires '/' !in suffix
    ensures Split(base + suffix) == Lengthened(Split(base), suffix)
  {
    if base == "" {
      assert base + suffix == suffix;
      NoSlashIsOne(suffix);
    } else {
      SplitLonger(base[1..], suffix);
      assert (base + suffix)[1..] == base[1..] + suffix;
      LengthenedBehind(base[0], Split(base[1..]), suffix);
    }
  }

  lemma LengthenedIsNamed(c: seq<string>, suffix: string)
    requires c != [] && |suffix| > 1 && forall i | 0 <= i < |c| :: Names(c[i])
    ensures forall i | 0 <= i < |Lengthened(c, suffix)| :: Names(Lengthened(c, suffix)[i])
  {
  }

  lemma CandidateIsCanonical(base: string, k: nat)
    requires IsCanonical(base)
    ensures IsCanonical(Candidate(base, k))
  {
    if k > 0 {
      var suffix := "-" + Decimal(k + 1);
      assert '/' !in suffix && base + suffix == Candidate(base, k);
      SplitLonger(base, suffix);
      LengthenedIsNamed(Split(base), suffix);
    }
  }

  lemma {:induction false} LastOfSplit(s: string)
    ensures LastSegment(s) == Split(s)[|Split(s)| - 1]
  {
    if s != "" {
      var init, c := s[..|s| - 1], s[|s| - 1];
      LastOfSplit(init);
      assert s == init + [c];
      if c == '/' { SplitSlash(init); } else { SplitLonger(init, [c]); }
    }
  }

  /** Some segment before the last is "..". */
  predicate PassesParent(s: string) {
    exists i | 0 <= i < |s| :: s[i] == '/' && LastSegment(s[..i]) == ".."
  }

  lemma PassesOneMore(init: string, c: char)
    ensures PassesParent(init + [c]) <==> PassesParent(init) || (c == '/' && LastSegment(init) == "..")
  {
    var s := init + [c];
    assert forall i | 0 <= i <= |init| :: s[..i] == init[..i];
    assert init[..|init|] == init;
    if PassesParent(init) {
      var i :| 0 <= i < |init| && init[i] == '/' && LastSegment(init[..i]) == "..";
      assert s[i] == '/' && LastSegment(s[..i]) == "..";
    }
    if c == '/' && LastSegment(init) == ".." {
      assert s[|init|] == '/' && LastSegment(s[..|init|]) == "..";
    }
  }

  lemma {:induction false} PassesExactly(s: string)
    ensures PassesParent(s) <==> ".." in Split(s)[..|Split(s)| - 1]
  {
    if s != "" {
      var init, c := s[..|s| - 1], s[|s| - 1];
      PassesExactly(init);
      LastOfSplit(init);
      PassesOneMore(init, c);
      assert s == init + [c];
      var d := Split(init);
      if c == '/' {
        SplitSlash(init);
        assert Split(s)[..|Split(s)| - 1] == d && d == d[..|d| - 1] + [d[|d| - 1]];
      } else {
        SplitLonger(init, [c]);
        assert Split(s)[..|Split(s)| - 1] == d[..|d| - 1];
      }
    }
  }

  /** A path is refused for "..", exactly, when that is one of its segments. */
  lemma ParentDirIsASegment(s: string)
    ensures HasParentDir(s) <==> ".." in Split(s)
  {
    LastOfSplit(s);
    PassesExactly(s);
    var c := Split(s);
    assert c == c[..|c| - 1] + [c[|c| - 1]];
  }

  // ---- The directory a URL names, and the step that fills it.

  function Times(what: string, n: nat): string {
    if n == 0 then "" else Times(what, n - 1) + what
  }

  lemma Reassociate(a: string, b: string, c: string)
    ensures a + b + c == a + (b + c)
  {
  }

  lemma {:induction false} TrimSlashesTakesSlashes(s: string) returns (n: nat)
    ensures s == TrimSlashes(s) + Times("/", n)
    ensures TrimSlashes(s) == "" || TrimSlashes(s)[|TrimSlashes(s)| - 1] != '/'
  {
    n := 0;
    if s != "" && s[|s| - 1] == '/' {
      var init := s[..|s| - 1];
      n := TrimSlashesTakesSlashes(init);
      Reassociate(TrimSlashes(init), Times("/", n), "/");
      assert s == init + "/";
      n := n + 1;
    }
  }

  lemma {:induction false} TrimDotGitTakesDotGit(s: string) returns (n: nat)
    ensures s == TrimDotGit(s) + Times(".git", n)
    ensures |TrimDotGit(s)| < 4 || TrimDotGit(s)[|TrimDotGit(s)| - 4..] != ".git"
  {
    n := 0;
    if |s| >= 4 && s[|s| - 4..] == ".git" {
      var init := s[..|s| - 4];
      n := TrimDotGitTakesDotGit(init);
      Reassociate(TrimDotGit(init), Times(".git", n), ".git");
      assert s == init + ".git";
      n := n + 1;
    }
  }

  lemma {:induction false} LastSegmentFollowsASlash(s: string) returns (front: string)
    ensures s == front + LastSegment(s) && '/' !in LastSegment(s)
    ensures front == "" || front[|front| - 1] == '/'
  {
    front := s;
    if s != "" && s[|s| - 1] != '/' {
      front := LastSegmentFollowsASlash(s[..|s| - 1]);
      assert s == s[..|s| - 1] + [s[|s| - 1]];
    }
  }

  /** Without a requested directory the base is the URL's last segment, without its ".git" endings and trailing slashes. */
  lemma DerivedBase(repo: RepoConfig) returns (front: string, gits: nat, slashes: nat)
    requires RequestedDir(repo) == "" && BaseOf(repo).Ok?
    ensures var base := BaseOf(repo).value;
            && AfterScheme(Trim(repo.url)) == front + (base + Times(".git", gits)) + Times("/", slashes)
            && (front == "" || front[|front| - 1] == '/') && base != "" && '/' !in base
            && (|base| < 4 || base[|base| - 4..] != ".git")
  {
    var url := AfterScheme(Trim(repo.url));
    slashes := TrimSlashesTakesSlashes(url);
    front := LastSegmentFollowsASlash(TrimSlashes(url));
    gits := TrimDotGitTakesDotGit(LastSegment(TrimSlashes(url)));
  }

  /** A requested directory is taken as it is, white space around it aside. */
  lemma RequestedBase(repo: RepoConfig)
    requires RequestedDir(repo) != "" && BaseOf(repo).Ok?
    ensures repo.dir.Some? && BaseOf(repo).value == Trim(repo.dir.value)
  {
  }

  predicate SchemeAt(url: string, i: nat) {
    i + 3 <= |url| && url[i..i + 3] == "://"
  }

  lemma {:induction false} SchemeFrom(url: string, i: nat)
    requires i + 3 <= |url| && forall j | 0 <= j < i :: !SchemeAt(url, j)
    ensures forall k: nat | SchemeAt(url, k) && (forall j | 0 <= j < k :: !SchemeAt(url, j)) ::
              AfterSchemeFrom(url, i) == url[k + 3..]
    ensures (forall k: nat :: !SchemeAt(url, k)) ==> AfterSchemeFrom(url, i) == url
    decreases |url| - i
  {
    assert SchemeAt(url, i) <==> url[i..i + 3] == "://";
    if !SchemeAt(url, i) && i + 3 < |url| {
      SchemeFrom(url, i + 1);
    }
  }

  /** The scheme goes up to the first "://", if there is one. */
  lemma SchemeIsDropped(url: string)
    ensures forall k: nat | SchemeAt(url, k) && (forall j | 0 <= j < k :: !SchemeAt(url, j)) ::
              AfterScheme(url) == url[k + 3..]
    ensures (forall k: nat :: !SchemeAt(url, k)) ==> AfterScheme(url) == url
  {
    if |url| >= 3 { SchemeFrom(url, 0); }
  }

  /** The value a step gives a parameter: the first of that key. */
  function Param(with: seq<StepParam>, key: string): Option<string> {
    if with == [] then None else if with[0].key == key then Some(with[0].value) else Param(with[1..], key)
  }

  /** Run as written, a step checks out the repository's URL, at its reference if it has one, into the chosen directory. */
  lemma StepChecksOut(repo: RepoConfig, dir: string)
    ensures var step := StepFor(repo, dir);
            && step.name == "checkout " + dir && step.uses == "git_checkout"
            && Param(step.with, "url") == Some(Trim(repo.url)) && Param(step.with, "dir") == Some(dir)
            && Param(step.with, "ref") ==
               if repo.gitRef.Some? && Trim(repo.gitRef.value) != "" then Some(Trim(repo.gitRef.value)) else None
  {
    var with := StepFor(repo, dir).with;
    assert with[1..] == [StepParam("dir", dir)] + with[2..] && with[1..][1..] == with[2..];
    assert "url"[0] == 'u' && "dir"[0] == 'd' && "ref"[0] == 'r';
    OnlyReference(with[2..]);
  }

  lemma OnlyReference(with: seq<StepParam>)
    requires |with| <= 1 && (with != [] ==> with[0].key == "ref")
    ensures Param(with, "ref") == if with == [] then None else Some(with[0].value)
  {
  }

  /** If every base is spelled canonically, no two repositories share a directory. */
  lemma CanonicalBasesShareNothing(repos: seq<RepoConfig>, dirs: seq<string>, i: nat, j: nat)
    requires ChosenInOrder(repos, dirs) && i < j < |dirs|
    requires forall k | 0 <= k < |dirs| :: BaseOf(repos[k]).Ok? ==> IsCanonical(BaseOf(repos[k]).value)
    ensures DirectoryOf(dirs[i]) != DirectoryOf(dirs[j])
  {
    DirectoriesAreSafe(repos, dirs);
    ChosenIsCanonical(repos, dirs, i);
    ChosenIsCanonical(repos, dirs, j);
    CanonicalSpellingsDiffer(dirs[i], dirs[j]);
  }

  lemma ChosenIsCanonical(repos: seq<RepoConfig>, dirs: seq<string>, i: nat)
    requires ChosenInOrder(repos, dirs) && i < |dirs|
    requires BaseOf(repos[i]).Ok? ==> IsCanonical(BaseOf(repos[i]).value)
    ensures IsCanonical(dirs[i])
  {
    assert Chosen(repos[i], dirs[i], dirs[..i]);
    var base := BaseOf(repos[i]).value;
    var k: nat :| dirs[i] == Candidate(base, k);
    CandidateIsCanonical(base, k);
  }

  ghost predicate BasesDiffer(repos: seq<RepoConfig>) {
    forall i, j | 0 <= i < j < |repos| :: BaseOf(repos[i]) != BaseOf(repos[j])
  }

  /**
    Bases spelled pairwise differently are taken as they are. So two repositories share a
    directory exactly when their bases are two spellings of one.
   */
  lemma {:induction false} DifferentBasesAreTaken(repos: seq<RepoConfig>, dirs: seq<string>, i: nat)
    requires ChosenInOrder(repos, dirs) && BasesDiffer(repos) && i < |dirs|
    ensures BaseOf(repos[i]) == Ok(dirs[i])
  {
    assert Chosen(repos[i], dirs[i], dirs[..i]);
    var base := BaseOf(repos[i]).value;
    var k: nat :| dirs[i] == Candidate(base, k) && forall j: nat | j < k :: Candidate(base, j) in dirs[..i];
    if k > 0 {
      assert Candidate(base, 0) in dirs[..i];
      var j :| 0 <= j < i && dirs[j] == base;
      DifferentBasesAreTaken(repos, dirs, j);
    }
  }

  lemma SharedExactlyWhenRespelled(repos: seq<RepoConfig>, dirs: seq<string>, i: nat, j: nat)
    requires ChosenInOrder(repos, dirs) && BasesDiffer(repos) && i < j < |dirs|
    ensures BaseOf(repos[i]).Ok? && BaseOf(repos[j]).Ok?
    ensures DirectoryOf(dirs[i]) == DirectoryOf(dirs[j]) <==>
            DirectoryOf(BaseOf(repos[i]).value) == DirectoryOf(BaseOf(repos[j]).value)
  {
    DifferentBasesAreTaken(repos, dirs, i);
    DifferentBasesAreTaken(repos, dirs, j);
  }

  lemma {:induction false} SplitSlash(s: string)
    ensures Split(s + "/") == Split(s) + [""]
  {
    if s == "" {
      assert "/"[1..] == "" && s + "/" == "/";
    } else {
      SplitSlash(s[1..]);
      assert (s + "/")[1..] == s[1..] + "/";
    }
  }

  lemma {:induction false} EmptySegmentLeadsNowhere(c: seq<string>)
    ensures Directory(c + [""]) == Directory(c)
  {
    if c == [] {
      assert [""][1..] == [];
    } else {
      assert (c + [""])[1..] == c[1..] + [""];
      EmptySegmentLeadsNowhere(c[1..]);
    }
  }

  lemma TrailingSlashStaysInside(d: string)
    requires d != "" && !Escapes(d)
    ensures !Escapes(d + "/")
  {
    var s := d + "/";
    forall i | 0 <= i < |s| && s[i] == '/' ensures LastSegment(s[..i]) != ".." {
      assert s[..i] == d[..i];
      assert d[..|d|] == d;
    }
  }

  lemma IsABase(url: string, d: string)
    requires Trim(url) != "" && IsTrimmed(d) && !Escapes(d)
    ensures BaseOf(RepoConfig(url, None, Some(d))) == Ok(d)
  {
  }

  /** It happens, with every acceptable path: asked for with and without a trailing slash, it is handed out twice. */
  lemma TrailingSlashSharesADirectory(url: string, d: string)
    requires Trim(url) != "" && IsTrimmed(d) && !Escapes(d)
    ensures ChosenInOrder([RepoConfig(url, None, Some(d)), RepoConfig(url, None, Some(d + "/"))], [d, d + "/"])
    ensures DirectoryOf(d) == DirectoryOf(d + "/")
  {
    TrailingSlashStaysInside(d);
    IsABase(url, d);
    IsABase(url, d + "/");
    var repos, dirs := [RepoConfig(url, None, Some(d)), RepoConfig(url, None, Some(d + "/"))], [d, d + "/"];
    assert d == Candidate(d, 0) && d + "/" == Candidate(d + "/", 0);
    assert Chosen(repos[0], dirs[0], dirs[..0]) && Chosen(repos[1], dirs[1], dirs[..1]);
    SplitSlash(d);
    EmptySegmentLeadsNowhere(Split(d));
  }
}
