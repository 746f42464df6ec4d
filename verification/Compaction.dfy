/** What a compaction keeps: the rough token count, the budget and the cut. */
module Compaction {
  import opened Wrappers
  import opened Messages
  import opened Histories
  import opened Strings
  import opened Decimals

  const UNKNOWN_IMAGE_TOKENS: nat := 1_500
  const DOCUMENT_TOKENS: nat := 3_000

  function Saturate(n: nat): (r: nat)
    ensures r <= U32_MAX && r <= n && (n <= U32_MAX ==> r == n) && (r < n ==> r == U32_MAX)
  {
    if n > U32_MAX then U32_MAX else n
  }

  datatype Budget = Budget(contextWindow: nat, triggerAtPercent: nat, retainPercent: nat) {
    function TriggerTokens(): nat {
      Saturate(contextWindow * triggerAtPercent) / 100
    }

    function RetainTokens(): nat {
      Saturate(contextWindow * retainPercent) / 100
    }
  }

  function ArtifactChars(a: ArtifactRef): nat {
    4 * match a.kind
        case Image(Some(w), Some(h)) => w * h / 750
        case Image(_, _) => UNKNOWN_IMAGE_TOKENS
        case Document => DOCUMENT_TOKENS
  }

  function PartChars(p: ContentPart): nat {
    match p
    case Text(text) => |text|
    case ToolResult(_, output, _, _) => |output|
    case ToolCall(call) => |call.input|
    case Thinking(thought) => |thought|
    case SubAgentResult(report) => |report|
    case Artifact(a) => ArtifactChars(a)
  }

  function Chars(parts: seq<ContentPart>): nat {
    if parts == [] then 0 else PartChars(parts[0]) + Chars(parts[1..])
  }

  function ApproxTokens(m: Message): nat {
    Saturate(Chars(m.parts) / 4)
  }

  /** The exact, unsaturated token count of a span. */
  function Tokens(h: seq<Message>): nat {
    if h == [] then 0 else ApproxTokens(h[0]) + Tokens(h[1..])
  }

  /** Whether the window starting at `i` fits. A saturated count fits a saturated budget. */
  predicate Fits(h: seq<Message>, i: nat, budget: nat)
    requires i <= |h|
  {
    budget >= U32_MAX || Tokens(h[i..]) <= budget
  }

  predicate SafeAt(h: seq<Message>, i: int) {
    0 <= i < |h| && IsSafeBoundary(h[i])
  }

  /** The earliest safe boundary whose window fits. */
  ghost predicate EarliestFitting(h: seq<Message>, budget: nat, cut: nat) {
    && SafeAt(h, cut) && Fits(h, cut, budget)
    && forall i | SafeAt(h, i) && i < cut :: !Fits(h, i, budget)
  }

  /** The latest safe boundary, when none fits. */
  ghost predicate LatestOverrunning(h: seq<Message>, budget: nat, cut: nat) {
    && SafeAt(h, cut)
    && forall i | SafeAt(h, i) :: i <= cut && !Fits(h, i, budget)
  }

  /** Nothing retained, when no boundary is safe. */
  ghost predicate SummaryOnly(h: seq<Message>, cut: nat) {
    cut == |h| && forall i :: !SafeAt(h, i)
  }

  ghost predicate IsCut(h: seq<Message>, budget: nat, cut: nat) {
    EarliestFitting(h, budget, cut) || LatestOverrunning(h, budget, cut) || SummaryOnly(h, cut)
  }

  /** Saturating sums from the right; the table refines the exact ones. */
  method SuffixTable(history: seq<Message>) returns (table: seq<nat>)
    ensures |table| == |history| + 1
    ensures forall i | 0 <= i <= |history| :: table[i] == Saturate(Tokens(history[i..]))
  {
    var suffix := new nat[|history| + 1](_ => 0);
    var idx := |history|;
    while idx > 0
      invariant 0 <= idx <= |history|
      invariant forall i | idx <= i <= |history| :: suffix[i] == Saturate(Tokens(history[i..]))
    {
      idx := idx - 1;
      assert history[idx..][1..] == history[idx + 1..];
      suffix[idx] := Saturate(suffix[idx + 1] + ApproxTokens(history[idx]));
    }
    table := suffix[..];
  }

  /** Reading the table is asking whether the window fits. */
  lemma TableSaysWhatFits(h: seq<Message>, table: seq<nat>, budget: nat)
    requires budget <= U32_MAX && |table| == |h| + 1
    requires forall i | 0 <= i <= |h| :: table[i] == Saturate(Tokens(h[i..]))
    ensures forall i | 0 <= i <= |h| :: table[i] <= budget <==> Fits(h, i, budget)
  {
  }

  /** Where to cut: a method refining `IsCut`. */
  method ChooseCut(history: seq<Message>, budget: nat) returns (cut: nat)
    requires budget <= U32_MAX
    ensures cut <= |history| && IsCut(history, budget, cut)
  {
    if |history| == 0 {
      return 0;
    }
    var suffix := SuffixTable(history);
    cut := ScanBoundaries(history, suffix, budget);
    TableSaysWhatFits(history, suffix, budget);
  }

  /** The earliest safe index within the budget, else the latest safe one, else the length. */
  method ScanBoundaries(history: seq<Message>, suffix: seq<nat>, budget: nat) returns (cut: nat)
    requires |suffix| == |history| + 1
    ensures cut <= |history|
    ensures cut == |history| ==> forall i :: !SafeAt(history, i)
    ensures cut < |history| ==> SafeAt(history, cut)
    ensures forall i | SafeAt(history, i) && i < cut :: suffix[i] > budget
    ensures forall i | SafeAt(history, i) && suffix[cut] > budget :: i <= cut
  {
    var latestSafe: Option<nat> := None;
    for i := 0 to |history|
      invariant forall k | SafeAt(history, k) && k < i :: suffix[k] > budget
      invariant latestSafe.Some? ==> SafeAt(history, latestSafe.value) && latestSafe.value < i
      invariant forall k | SafeAt(history, k) && k < i :: latestSafe.Some? && k <= latestSafe.value
    {
      if !IsSafeBoundary(history[i]) {
        continue;
      }
      if suffix[i] <= budget {
        return i;
      }
      latestSafe := Some(i);
    }
    if latestSafe.Some? { cut := latestSafe.value; } else { cut := |history|; }
  }

  /** The three cases exclude each other: a history and a budget have one cut. */
  lemma CutIsUnique(h: seq<Message>, budget: nat, c1: nat, c2: nat)
    requires IsCut(h, budget, c1) && IsCut(h, budget, c2)
    ensures c1 == c2
  {
    assert SafeAt(h, c1) || SummaryOnly(h, c1);
    assert SafeAt(h, c2) || SummaryOnly(h, c2);
  }

  lemma NotAtZero(h: seq<Message>, budget: nat, cut: nat)
    requires IsCut(h, budget, cut) && cut > 0
    ensures !IsCut(h, budget, 0)
  {
    if IsCut(h, budget, 0) { CutIsUnique(h, budget, cut, 0); }
  }

  lemma {:induction false} LaterWindowsAreSmaller(h: seq<Message>, i: nat, j: nat)
    requires i <= j <= |h|
    ensures Tokens(h[j..]) <= Tokens(h[i..])
    decreases j - i
  {
    if i < j {
      assert h[i..][1..] == h[i + 1..];
      LaterWindowsAreSmaller(h, i + 1, j);
    }
  }

  /** The newest safe user message always survives. */
  lemma NewestSafeMessageIsRetained(h: seq<Message>, budget: nat, cut: nat, newest: nat)
    requires IsCut(h, budget, cut) && SafeAt(h, newest) && forall i | SafeAt(h, i) :: i <= newest
    ensures cut <= newest && h[cut..][newest - cut] == h[newest]
  {
    if SummaryOnly(h, cut) {
      assert false;
    }
  }

  const SUMMARY_HEADING := "This conversation was compacted: earlier history is summarised below rather than shown in full. "
    + "The messages after this one are verbatim.\n\n## Summary of earlier work\n"

  const STATE_HEADING := "\n\n## Current state\n"

  /** The message that stands for everything a compaction folded away from a history of `n` messages. */
  function BoundaryMessage(n: nat, summary: string, carriedState: string): (m: Message)
    ensures IsSafeBoundary(m)
  {
    var text := SUMMARY_HEADING + Trim(summary) + STATE_HEADING + Trim(carriedState);
    Message("compaction:" + Decimal(n), User, [Text(text)])
  }

  /** `m` presents this summary, which is not blank. */
  ghost predicate Presents(m: Message, n: nat, summary: string) {
    Trim(summary) != "" && IsSafeBoundary(m) && exists carriedState :: m == BoundaryMessage(n, summary, carriedState)
  }

  /** A request for a summary of the first `cut` messages: those messages and one prompt. */
  predicate IsSummaryRequest(messages: seq<Message>, history: seq<Message>, cut: nat) {
    && cut <= |history| && |messages| == cut + 1 && messages[..cut] == history[..cut]
    && IsSafeBoundary(messages[cut]) && messages[cut].id == "compaction-request:" + Decimal(cut)
  }

  /** The history a compaction leaves: one boundary message, then the window verbatim. */
  function Rewritten(h: seq<Message>, cut: nat, boundary: Message): seq<Message>
    requires cut <= |h|
  {
    [boundary] + h[cut..]
  }

  /**
    Compacting is stable. Cutting the rewritten history with the same budget folds at
    most the boundary message, so no verbatim message is ever summarised twice.
   */
  lemma RecutKeepsTheWindow(h: seq<Message>, budget: nat, cut: nat, boundary: Message, again: nat)
    requires cut <= |h| && IsCut(h, budget, cut) && IsSafeBoundary(boundary)
    requires IsCut(Rewritten(h, cut, boundary), budget, again)
    ensures again <= 1 && Rewritten(h, cut, boundary)[1..] == h[cut..]
    ensures again == 0 <==> Fits(Rewritten(h, cut, boundary), 0, budget) || cut == |h|
  {
    var r := Rewritten(h, cut, boundary);
    assert r[1..] == h[cut..];
    assert SafeAt(r, 0);
    LaterWindowsAreSmaller(r, 0, 1);
    if cut < |h| {
      assert r[1] == h[cut] && SafeAt(r, 1);
      assert Fits(r, 1, budget) <==> Fits(h, cut, budget);
      forall i | SafeAt(r, i) && i >= 1 && !EarliestFitting(h, budget, cut) ensures i == 1 {
        assert SafeAt(h, cut + i - 1);
      }
    }
  }

  /** Both requests a compaction leads to, the summariser's and the next turn's, are balanced. */
  lemma CompactionKeepsBalance(h: seq<Message>, budget: nat, cut: nat, boundary: Message, prompt: Message)
    requires Balanced(h) && cut <= |h| && IsCut(h, budget, cut)
    requires IsSafeBoundary(boundary) && IsSafeBoundary(prompt)
    ensures Balanced(h[..cut] + [prompt])
    ensures Balanced(Rewritten(h, cut, boundary))
  {
    CutBeforeOpener(h, cut);
    AddBoundary(h[..cut], prompt);
    AddBoundary(h[cut..], boundary);
  }

  ghost predicate HasSafe(h: seq<Message>) {
    exists i :: SafeAt(h, i)
  }

  /** Nothing before an opener is left unanswered, and what follows it owes what the whole owes. */
  lemma SplitDebts(h: seq<Message>, cut: nat, ids: Ids)
    requires Owed(h) == Some(ids) && cut < |h| && Opens(h[cut])
    ensures Owed(h[..cut]) == NOTHING_OWED && Owed(h[cut..]) == Some(ids)
  {
    assert h == h[..cut] + h[cut..];
    ScanConcat(NOTHING_OWED, h[..cut], h[cut..]);
    ScanNone(h[cut..][1..]);
  }

  /** A boundary message in front of a history, or behind one. */
  lemma BesideBoundary(h: seq<Message>, m: Message)
    requires IsSafeBoundary(m)
    ensures Owed([m] + h) == Owed(h)
    ensures Balanced(h + [m]) <==> Owed(h) == NOTHING_OWED
  {
    ScanConcat(NOTHING_OWED, [m], h);
    BalancedWith(h, m);
  }

  /**
    A history that still owes calls, such as one a stopped run left, may be folded as well:
    the request for its summary is balanced, and it owes afterwards what it owed before,
    exactly when it owes nothing or some boundary is safe.
   */
  lemma FoldingKeepsDebts(h: seq<Message>, budget: nat, cut: nat, m: Message, ids: Ids)
    requires Owed(h) == Some(ids) && cut <= |h| && IsCut(h, budget, cut) && IsSafeBoundary(m)
    ensures Balanced(h[..cut] + [m]) <==> ids == multiset{} || HasSafe(h)
    ensures Owed(Rewritten(h, cut, m)) == Some(ids) <==> ids == multiset{} || HasSafe(h)
  {
    BesideBoundary(h[..cut], m);
    BesideBoundary(h[cut..], m);
    if SafeAt(h, cut) {
      SplitDebts(h, cut, ids);
    } else {
      assert SummaryOnly(h, cut) && h[..cut] == h && h[cut..] == [];
    }
  }

  /** Without a safe boundary an open call is summarised away: no answer to it can follow. */
  lemma FoldingCanOrphan(id: string, call: Call, budget: nat, m: Message)
    requires IsSafeBoundary(m)
    ensures var h := [Message(id, Assistant, [ToolCall(call)])];
            && Owed(h) == Some(multiset{call.id}) && IsCut(h, budget, 1)
            && !Balanced(h[..1] + [m]) && Owed(Rewritten(h, 1, m)) == NOTHING_OWED
  {
    var h := [Message(id, Assistant, [ToolCall(call)])];
    assert ToolCalls(h[0].parts) == [call] by { assert h[0].parts[1..] == []; }
    assert IdsOf([call]) == multiset{call.id} by { assert [call][1..] == [] && IdsOf([]) == multiset{}; }
    OwedAppend([], h[0]);
    assert [] + h == h && h[1..] == [];
    assert forall i :: !SafeAt(h, i);
    FoldingKeepsDebts(h, budget, 1, m, multiset{call.id});
    BesideBoundary(h[1..], m);
  }

  // ---- What the numbers mean.

  /** The thresholds are the shares of the window they are named after, rounded down, while 32 bits hold the product. */
  lemma ThresholdsAreShares(b: Budget)
    ensures b.contextWindow * b.triggerAtPercent <= U32_MAX ==>
              100 * b.TriggerTokens() <= b.contextWindow * b.triggerAtPercent < 100 * (b.TriggerTokens() + 1)
    ensures b.contextWindow * b.retainPercent <= U32_MAX ==>
              100 * b.RetainTokens() <= b.contextWindow * b.retainPercent < 100 * (b.RetainTokens() + 1)
  {
  }

  /** A larger share is a larger threshold, saturated or not; so a window that retains less than triggers can shrink. */
  lemma LargerShareLargerThreshold(b: Budget)
    ensures b.retainPercent <= b.triggerAtPercent ==> b.RetainTokens() <= b.TriggerTokens()
    ensures b.triggerAtPercent <= b.retainPercent ==> b.TriggerTokens() <= b.RetainTokens()
  {
    LargerFactor(b.contextWindow, b.retainPercent, b.triggerAtPercent);
    LargerFactor(b.contextWindow, b.triggerAtPercent, b.retainPercent);
  }

  lemma LargerFactor(a: nat, b: nat, c: nat)
    ensures b <= c ==> a * b <= a * c
  {
  }

  /** A message counts what its parts count. */
  lemma {:induction false} CharsOfBoth(a: seq<ContentPart>, b: seq<ContentPart>)
    ensures Chars(a + b) == Chars(a) + Chars(b)
  {
    if a == [] {
      assert a + b == b;
    } else {
      assert (a + b)[1..] == a[1..] + b;
      CharsOfBoth(a[1..], b);
    }
  }

  function TextBytes(p: ContentPart): nat {
    match p
    case Text(text) => |text|
    case ToolCall(call) => |call.input|
    case ToolResult(_, output, _, _) => |output|
    case Thinking(thought) => |thought|
    case SubAgentResult(report) => |report|
    case Artifact(_) => 0
  }

  /** A part of text counts its bytes, and a message of one part a quarter of them. */
  lemma TextCountsItsBytes(id: string, role: Role, p: ContentPart)
    requires !p.Artifact?
    ensures PartChars(p) == TextBytes(p)
    ensures var n := ApproxTokens(Message(id, role, [p]));
            TextBytes(p) <= U32_MAX ==> 4 * n <= TextBytes(p) < 4 * (n + 1)
  {
    OnePart(p);
  }

  lemma OnePart(p: ContentPart)
    ensures Chars([p]) == PartChars(p)
  {
    assert [p][1..] == [] && Chars([]) == 0;
  }

  /** An image counts a token for every 750 pixels, or 1500 when its size is unknown; a document counts 3000. */
  lemma ArtifactCountsItsTokens(id: string, role: Role, a: ArtifactRef)
    ensures var n := ApproxTokens(Message(id, role, [Artifact(a)]));
            match a.kind
            case Image(Some(w), Some(h)) => w * h / 750 <= U32_MAX ==> 750 * n <= w * h < 750 * (n + 1)
            case Image(_, _) => n == 1500
            case Document => n == 3000
  {
    OnePart(Artifact(a));
  }

  /** The summary comes before the state. */
  lemma SummaryComesFirst(n: nat, summary: string, state: string)
    ensures var text := BoundaryMessage(n, summary, state).parts[0].text;
            && |text| == |SUMMARY_HEADING| + |Trim(summary)| + |STATE_HEADING| + |Trim(state)|
            && text[|SUMMARY_HEADING|..|SUMMARY_HEADING| + |Trim(summary)|] == Trim(summary)
            && text[|text| - |Trim(state)|..] == Trim(state)
  {
    PartsOfText(SUMMARY_HEADING, Trim(summary), STATE_HEADING, Trim(state));
  }

  lemma PartsOfText(head: string, a: string, mid: string, x: string)
    ensures var s := head + a + mid + x;
            s[|head|..|head| + |a|] == a && s[|s| - |x|..] == x
  {
  }
}
