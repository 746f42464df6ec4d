/**
  What a run leaves behind: a trace of everything it emitted, asked, pushed,
  rewrote and decided, and the readings of that trace a run is judged by.
 */
module Runs {
  import opened Wrappers
  import opened Messages
  import opened Histories
  import opened Compaction
  import opened ToolOutput
  import opened ToolBatch
  import opened Strings

  datatype StopReason = EndTurn | ToolUse | MaxTokens

  datatype Usage = Usage(input: nat, output: nat, cacheCreation: Option<nat>, cacheRead: Option<nat>)

  datatype Response = Response(parts: seq<ContentPart>, stopReason: StopReason, usage: Usage)

  datatype AgentError =
    | Cancelled
    | MaxIterationsExceeded(max: nat)
    | Provider
    | EventSink
    | Truncated
    | StuckInLoop(toolName: string, count: nat)

  datatype AgentResult = Completed(text: string) | Stopped(calls: seq<Call>)

  datatype Output = Output(result: AgentResult, usage: Usage)

  datatype Event =
    | InputMessage(input: Input)
    | MessageStart
    | MessageStop
    | MessageComplete(message: Message)
    | ToolExecuting(callId: string)
    | ToolComplete(result: Message, originalBytes: nat, truncatedBytes: nat, spilledBytes: nat)
    | RunComplete(usage: Usage, iterations: nat, contextTokens: nat)
    | RunAborted(usage: Usage, contextTokens: nat)
    | Compacted(summary: string, carriedState: string, retainedFrom: Option<string>, tokensBefore: nat, tokensAfter: nat)
    | CompactionSkipped(contextTokens: nat)

  datatype Verdict = Stuck | Nudge | Dispatch

  /**
    What happens in a run. The environment's part is noted where the environment speaks: the
    sink at `Emitted` and `Reported`, the provider at `Answered` and `AskedSummary`, the
    toolbox at `Executed`, the policy at `Vetoed`, the cancellation token at `CancelSeen`.
   */
  datatype Entry =
    | Emitted(event: Event, accepted: bool)
    | Asked(messages: seq<Message>)
    | Answered(response: Response)
    | Vetoed(manual: bool)
    | AskedSummary(manual: bool, cut: nat, messages: seq<Message>, summary: Option<string>)
    | Rewrote(cut: nat, boundary: Message)
    | Pushed(message: Message, nudge: bool)
    | Judged(fingerprint: string, verdict: Verdict)
    | Executed(call: Call, outcome: ToolOutcome)
    | Reported(call: Call, outcome: ToolOutcome, event: Event, accepted: bool)
    | CancelSeen

  /** A trace grows at its end. */
  datatype Trace = Start | Then(before: Trace, last: Entry)

  // ---- The history a trace spells out, and the requests made along it.

  /** How much a compaction retains, what prompt size triggers one by itself, and the prompt size a run begins with. */
  datatype Plan = Plan(retain: nat, trigger: Option<nat>, context: nat)

  /** What came of compacting since the last request. */
  datatype Attempt = Untried | Abandoned | Summarised(cut: nat, text: Option<string>) | Folded

  /**
    The history so far, and the calls it owes answers to; the messages this run itself
    pushed; the size of the latest prompt, and what came of compacting since; whether the
    steps were faithful; whether every request was balanced; and how many requests the loop
    made. Faithful means: every request of the loop was the history of its moment, and by
    then a compaction that was due had been seen through; every summary request asked for the
    messages before the chosen cut, and, unless somebody asked for it, when one was due;
    every rewrite put the summary obtained for that cut in their place; and only the first
    message pushed was a user's.
   */
  datatype Dialogue = Dialogue(history: seq<Message>, owed: Option<Ids>, turn: seq<Message>,
                               context: nat, attempt: Attempt, faithful: bool, balanced: bool, asks: nat)

  /** Folding at `cut` is what the budget calls for. */
  ghost predicate Foldable(h: seq<Message>, budget: nat, cut: nat) {
    0 < cut <= |h| && IsCut(h, budget, cut)
  }

  /** A compaction is due: the prompt has reached the trigger and there is something to fold. */
  ghost predicate IsDue(h: seq<Message>, context: nat, plan: Plan) {
    plan.trigger.Some? && plan.trigger.value <= context && !IsCut(h, plan.retain, 0)
  }

  predicate IsBlank(text: Option<string>) {
    text.None? || Trim(text.value) == ""
  }

  /** The compaction, if due, was seen through: abandoned by the policy, without a usable summary, or done. */
  ghost predicate SeenThrough(d: Dialogue, plan: Plan) {
    match d.attempt
    case Untried => !IsDue(d.history, d.context, plan)
    case Summarised(_, text) => IsBlank(text)
    case _ => true
  }

  ghost function Follow(d: Dialogue, e: Entry, plan: Plan): Dialogue {
    match e
    case Asked(messages) =>
      d.(faithful := d.faithful && messages == d.history && SeenThrough(d, plan), attempt := Untried,
      balanced := d.balanced && Balanced(messages), asks := d.asks + 1)
    case Answered(response) => d.(context := response.usage.input)
    case Vetoed(manual) =>
      d.(attempt := Abandoned, faithful := d.faithful && (manual || IsDue(d.history, d.context, plan)))
    case AskedSummary(manual, cut, messages, summary) =>
      d.(attempt := Summarised(cut, summary),
      faithful := d.faithful && (manual || IsDue(d.history, d.context, plan))
                  && Foldable(d.history, plan.retain, cut) && IsSummaryRequest(messages, d.history, cut),
      balanced := d.balanced && Balanced(messages))
    case Pushed(m, _) =>
      d.(history := d.history + [m], owed := Receive(d.owed, m), turn := d.turn + [m],
      faithful := d.faithful && (d.turn == [] || !m.role.User?))
    case Rewrote(cut, boundary) =>
      if cut > |d.history| || !d.attempt.Summarised? || d.attempt.text.None? then d.(faithful := false)
      else
        var after := Rewritten(d.history, cut, boundary);
        d.(history := after, owed := Owed(after), context := Tokens(after), attempt := Folded,
        faithful := d.faithful && Foldable(d.history, plan.retain, cut) && d.attempt.cut == cut
                    && Presents(boundary, |d.history|, d.attempt.text.value))
    case _ => d
  }

  ghost function DialogueOf(h: seq<Message>, plan: Plan, t: Trace): Dialogue {
    if t.Start? then Dialogue(h, Owed(h), [], plan.context, Untried, true, true, 0)
    else Follow(DialogueOf(h, plan, t.before), t.last, plan)
  }

  lemma OwedKeepsUpOnce(d: Dialogue, e: Entry, plan: Plan)
    requires d.owed == Owed(d.history)
    ensures Follow(d, e, plan).owed == Owed(Follow(d, e, plan).history)
  {
    if e.Pushed? {
      OwedAppend(d.history, e.message);
    }
  }

  /** Keeping up with the calls owed message by message agrees with scanning the whole history. */
  lemma {:induction false} OwedKeepsUp(h: seq<Message>, plan: Plan, t: Trace)
    ensures DialogueOf(h, plan, t).owed == Owed(DialogueOf(h, plan, t).history)
  {
    if t.Then? {
      OwedKeepsUp(h, plan, t.before);
      OwedKeepsUpOnce(DialogueOf(h, plan, t.before), t.last, plan);
    }
  }

  predicate EndsWith(h: seq<Message>, tail: seq<Message>) {
    |tail| <= |h| && h[|h| - |tail|..] == tail
  }

  /** Every request of the loop ended with all the run had pushed so far, verbatim and in order. */
  ghost predicate RequestsEndWithTheTurn(h: seq<Message>, plan: Plan, t: Trace) {
    t.Then? ==>
      && RequestsEndWithTheTurn(h, plan, t.before)
      && (t.last.Asked? ==> EndsWith(t.last.messages, DialogueOf(h, plan, t.before).turn))
  }

  /** A compaction keeps a tail whose only safe boundary is its first message. */
  lemma FoldingSparesTheTurn(h: seq<Message>, turn: seq<Message>, budget: nat, cut: nat, boundary: Message)
    requires EndsWith(h, turn) && turn != [] && IsSafeBoundary(turn[0])
    requires forall i | 0 < i < |turn| :: !turn[i].role.User?
    requires cut <= |h| && IsCut(h, budget, cut)
    ensures EndsWith(Rewritten(h, cut, boundary), turn)
  {
    var newest := |h| - |turn|;
    assert h[newest..][0] == h[newest];
    forall i | newest < i < |h| ensures !SafeAt(h, i) {
      assert h[i] == turn[i - newest];
    }
    NewestSafeMessageIsRetained(h, budget, cut, newest);
    var r := Rewritten(h, cut, boundary);
    assert r[|r| - |turn|..] == h[newest..];
  }

  /** The history ends with the turn, and only the turn's first message is a user's. */
  predicate TurnIntact(d: Dialogue) {
    EndsWith(d.history, d.turn) && forall i | 0 < i < |d.turn| :: !d.turn[i].role.User?
  }

  lemma FaithfulBefore(d: Dialogue, e: Entry, plan: Plan)
    requires Follow(d, e, plan).faithful
    ensures d.faithful && d.turn <= Follow(d, e, plan).turn
    ensures e.Asked? ==> e.messages == d.history
  {
  }

  lemma TurnSurvivesOnce(d: Dialogue, e: Entry, plan: Plan)
    requires Follow(d, e, plan).faithful && TurnIntact(d)
    requires d.turn != [] ==> IsSafeBoundary(d.turn[0])
    ensures TurnIntact(Follow(d, e, plan))
  {
    if e.Rewrote? {
      if d.turn != [] {
        FoldingSparesTheTurn(d.history, d.turn, plan.retain, e.cut, e.boundary);
      }
    } else if e.Pushed? {
      var h, n := d.history, |d.turn|;
      assert (h + [e.message])[|h| - n..] == h[|h| - n..] + [e.message];
    }
  }

  /**
    A turn opened by a user message is never folded away: however often the run compacts,
    its history ends with everything the run pushed.
   */
  lemma {:induction false} TurnSurvives(h: seq<Message>, plan: Plan, t: Trace)
    requires DialogueOf(h, plan, t).faithful
    requires DialogueOf(h, plan, t).turn != [] ==> IsSafeBoundary(DialogueOf(h, plan, t).turn[0])
    ensures TurnIntact(DialogueOf(h, plan, t))
    ensures RequestsEndWithTheTurn(h, plan, t)
  {
    if t.Then? {
      FaithfulBefore(DialogueOf(h, plan, t.before), t.last, plan);
      TurnSurvives(h, plan, t.before);
      TurnSurvivesOnce(DialogueOf(h, plan, t.before), t.last, plan);
    }
  }

  // ---- Accounting.

  /** Running totals over the calls paid for; `contextTokens` is not a total but the latest call's. */
  datatype Accounting = Accounting(usage: Usage, contextTokens: nat)

  const NOTHING_SPENT := Accounting(Usage(0, 0, None, None), 0)

  function Amount(o: Option<nat>): nat {
    if o.Some? then o.value else 0
  }

  function SumOptional(a: Option<nat>, b: Option<nat>): Option<nat> {
    if a.None? && b.None? then None else Some(Amount(a) + Amount(b))
  }

  function Bank(spent: Accounting, u: Usage): Accounting {
    Accounting(Usage(spent.usage.input + u.input, spent.usage.output + u.output,
                     SumOptional(spent.usage.cacheCreation, u.cacheCreation),
                     SumOptional(spent.usage.cacheRead, u.cacheRead)),
               u.input)
  }

  /**
    The usage of an answer whose message is still open; the usage of each provider call
    whose `MessageStop` the sink accepted, and what banking them one by one comes to; the
    accepted `RunComplete` events; the `RunAborted` events attempted, accepted or not;
    whether cancellation was seen; and whether the sink refused an event, those of a
    compaction and `RunAborted` aside.
   */
  datatype Ledger = Ledger(answer: Option<Usage>, paid: seq<Usage>, spent: Accounting, completions: nat, aborts: nat,
                           cancelled: bool, refused: bool)

  predicate Forgivable(e: Event) {
    e.Compacted? || e.CompactionSkipped? || e.RunAborted?
  }

  function Enter(l: Ledger, e: Entry): Ledger {
    match e
    case Asked(_) => l.(answer := None)
    case Answered(response) => l.(answer := Some(response.usage))
    case Emitted(MessageStop, true) =>
      if l.answer.None? then l
      else l.(paid := l.paid + [l.answer.value], spent := Bank(l.spent, l.answer.value), answer := None)
    case Emitted(RunComplete(_, _, _), true) => l.(completions := l.completions + 1)
    case Emitted(RunAborted(_, _), _) => l.(aborts := l.aborts + 1)
    case Emitted(event, false) => if Forgivable(event) then l else l.(refused := true)
    case Reported(_, _, _, false) => l.(refused := true)
    case CancelSeen => l.(cancelled := true)
    case _ => l
  }

  function LedgerOf(t: Trace): Ledger {
    if t.Start? then Ledger(None, [], NOTHING_SPENT, 0, 0, false, false) else Enter(LedgerOf(t.before), t.last)
  }

  datatype Column = InputTokens | OutputTokens | CreationTokens | ReadTokens

  function Cell(u: Usage, c: Column): Option<nat> {
    match c
    case InputTokens => Some(u.input)
    case OutputTokens => Some(u.output)
    case CreationTokens => u.cacheCreation
    case ReadTokens => u.cacheRead
  }

  function Sum(us: seq<Usage>, c: Column): nat {
    if us == [] then 0 else Sum(us[..|us| - 1], c) + Amount(Cell(us[|us| - 1], c))
  }

  /** A column's total: absent exactly when every call left it out. */
  function Reported(us: seq<Usage>, c: Column): Option<nat> {
    if forall i | 0 <= i < |us| :: Cell(us[i], c).None? then None else Some(Sum(us, c))
  }

  function Total(us: seq<Usage>): Usage {
    Usage(Sum(us, InputTokens), Sum(us, OutputTokens), Reported(us, CreationTokens), Reported(us, ReadTokens))
  }

  /** The last paid call's prompt size. */
  function LastPrompt(us: seq<Usage>): nat {
    if us == [] then 0 else us[|us| - 1].input
  }

  /** Banking one more call extends the totals by that call. */
  lemma BankOneCall(us: seq<Usage>, u: Usage)
    ensures Bank(Accounting(Total(us), LastPrompt(us)), u) == Accounting(Total(us + [u]), LastPrompt(us + [u]))
  {
    assert (us + [u])[..|us|] == us;
    forall c: Column
      ensures Sum(us + [u], c) == Sum(us, c) + Amount(Cell(u, c))
      ensures Reported(us + [u], c) == SumOptional(Reported(us, c), Cell(u, c))
    {
      NothingReportedSumsToZero(us, c);
      assert forall i | 0 <= i < |us| :: (us + [u])[i] == us[i];
      assert (us + [u])[|us|] == u;
    }
  }

  lemma {:induction false} NothingReportedSumsToZero(us: seq<Usage>, c: Column)
    ensures Reported(us, c).None? ==> Sum(us, c) == 0
  {
    if us != [] && Reported(us, c).None? {
      NothingReportedSumsToZero(us[..|us| - 1], c);
    }
  }

  predicate AddsUp(l: Ledger) {
    l.spent == Accounting(Total(l.paid), LastPrompt(l.paid))
  }

  lemma EntryAddsUp(l: Ledger, e: Entry)
    requires AddsUp(l)
    ensures AddsUp(Enter(l, e))
  {
    if e.Emitted? && e.event.MessageStop? && e.accepted && l.answer.Some? {
      BankOneCall(l.paid, l.answer.value);
    } else {
      assert Enter(l, e).paid == l.paid && Enter(l, e).spent == l.spent;
    }
  }

  /** Banking call by call comes to the column totals of the calls paid for. */
  lemma {:induction false} BankingTotals(t: Trace)
    ensures AddsUp(LedgerOf(t))
  {
    if t.Then? {
      BankingTotals(t.before);
      EntryAddsUp(LedgerOf(t.before), t.last);
    }
  }

  // ---- Loop detection.

  function Fingerprint(calls: seq<Call>): string {
    if calls == [] then ""
    else calls[0].name + ":" + calls[0].input + (if |calls| == 1 then "" else "|" + Fingerprint(calls[1..]))
  }

  /** The same tools with the same arguments, in the same order; ids are beside the point. */
  predicate SameCalls(a: seq<Call>, b: seq<Call>) {
    |a| == |b| && forall i | 0 <= i < |a| :: a[i].name == b[i].name && a[i].input == b[i].input
  }

  /** No name holds the separator between a name and its input. */
  predicate PlainNames(calls: seq<Call>) {
    forall i | 0 <= i < |calls| :: ':' !in calls[i].name
  }

  /**
    No input goes on, past another input, with the separator between calls. JSON texts never
    do, and neither do inputs without that separator.
   */
  ghost predicate Apart(a: seq<Call>, b: seq<Call>) {
    forall i, j | 0 <= i < |a| && 0 <= j < |b| ::
      !(a[i].input + "|" <= b[j].input) && !(b[j].input + "|" <= a[i].input)
  }

  lemma NoBarsAreApart(a: seq<Call>, b: seq<Call>)
    requires forall i | 0 <= i < |a| :: '|' !in a[i].input
    requires forall i | 0 <= i < |b| :: '|' !in b[i].input
    ensures Apart(a, b)
  {
    forall i, j | 0 <= i < |a| && 0 <= j < |b|
      ensures !(a[i].input + "|" <= b[j].input) && !(b[j].input + "|" <= a[i].input)
    {
      GoingOnTakesABar(a[i].input, b[j].input);
      GoingOnTakesABar(b[j].input, a[i].input);
    }
  }

  lemma GoingOnTakesABar(x: string, y: string)
    ensures x + "|" <= y ==> '|' in y
  {
    if x + "|" <= y {
      assert y[|x|] == '|';
    }
  }

  lemma {:induction false} SameCallsSamePrint(a: seq<Call>, b: seq<Call>)
    requires SameCalls(a, b)
    ensures Fingerprint(a) == Fingerprint(b)
  {
    if a != [] {
      SameCallsSamePrint(a[1..], b[1..]);
    }
  }

  lemma FirstColon(a: string, b: string, x: string, y: string)
    requires ':' !in a && ':' !in b && a + ":" + x == b + ":" + y
    ensures a == b && x == y
  {
    var u := a + ":" + x;
    assert u[|a|] == ':' && u[|b|] == ':';
    assert forall i | 0 <= i < |a| :: u[i] == a[i];
    assert forall i | 0 <= i < |b| :: u[i] == b[i];
    assert |a| == |b|;
    assert a == u[..|a|] && b == u[..|a|] && x == u[|a| + 1..] && y == u[|a| + 1..];
  }

  /** What follows an input in a fingerprint: nothing, or the separator and the rest. */
  predicate IsTail(tail: string) {
    tail == "" || tail[0] == '|'
  }

  lemma ShorterGoesOn(a: string, b: string, x: string, y: string)
    requires IsTail(x) && a + x == b + y && |a| < |b|
    ensures a + "|" <= b
  {
    var u := a + x;
    assert u == b + y && u[..|b|] == b && u[..|a|] == a;
    assert b[|a|] == u[|a|] == x[0] == '|' && b[..|a|] == a;
    assert b[..|a| + 1] == a + "|";
  }

  lemma InputEnds(a: string, b: string, x: string, y: string)
    requires IsTail(x) && IsTail(y) && a + x == b + y
    requires !(a + "|" <= b) && !(b + "|" <= a)
    ensures a == b && x == y
  {
    if |a| < |b| {
      ShorterGoesOn(a, b, x, y);
    } else if |b| < |a| {
      ShorterGoesOn(b, a, y, x);
    } else {
      var u := a + x;
      assert u[..|a|] == a && u[..|a|] == b && u[|a|..] == x && u[|a|..] == y;
    }
  }

  function TailOf(calls: seq<Call>): string
    requires calls != []
  {
    if |calls| == 1 then "" else "|" + Fingerprint(calls[1..])
  }

  lemma PrintParts(calls: seq<Call>)
    requires calls != []
    ensures Fingerprint(calls) == calls[0].name + ":" + (calls[0].input + TailOf(calls)) && IsTail(TailOf(calls))
  {
    var head, input, tail := calls[0].name + ":", calls[0].input, TailOf(calls);
    assert head + input + tail == head + (input + tail);
  }

  lemma SamePrintSameHead(a: seq<Call>, b: seq<Call>)
    requires a != [] && b != [] && PlainNames(a) && PlainNames(b) && Apart(a, b)
    requires Fingerprint(a) == Fingerprint(b)
    ensures a[0].name == b[0].name && a[0].input == b[0].input && TailOf(a) == TailOf(b)
  {
    PrintParts(a);
    PrintParts(b);
    FirstColon(a[0].name, b[0].name, a[0].input + TailOf(a), b[0].input + TailOf(b));
    InputEnds(a[0].input, b[0].input, TailOf(a), TailOf(b));
  }

  lemma {:induction false} SamePrintSameCalls(a: seq<Call>, b: seq<Call>)
    requires PlainNames(a) && PlainNames(b) && Apart(a, b) && Fingerprint(a) == Fingerprint(b)
    ensures SameCalls(a, b)
  {
    if a == [] {
      if b != [] { PrintParts(b); }
    } else if b == [] {
      PrintParts(a);
    } else {
      SamePrintSameHead(a, b);
      if |a| > 1 {
        assert Fingerprint(a[1..]) == TailOf(a)[1..] && Fingerprint(b[1..]) == TailOf(b)[1..];
        SamePrintSameCalls(a[1..], b[1..]);
        assert forall i | 0 < i < |a| :: a[i] == a[1..][i - 1] && b[i] == b[1..][i - 1];
      }
    }
  }

  /** Two batches have one fingerprint exactly when they ask for the same calls. */
  lemma PrintTellsBatchesApart(a: seq<Call>, b: seq<Call>)
    requires PlainNames(a) && PlainNames(b) && Apart(a, b)
    ensures Fingerprint(a) == Fingerprint(b) <==> SameCalls(a, b)
  {
    if SameCalls(a, b) {
      SameCallsSamePrint(a, b);
    } else if Fingerprint(a) == Fingerprint(b) {
      SamePrintSameCalls(a, b);
    }
  }

  /** A single call is told by its name and its input, whatever the input holds. */
  lemma OneCallIsTold(a: Call, b: Call)
    requires ':' !in a.name && ':' !in b.name
    ensures Fingerprint([a]) == Fingerprint([b]) <==> a.name == b.name && a.input == b.input
  {
    PrintParts([a]);
    PrintParts([b]);
    assert a.input + "" == a.input && b.input + "" == b.input;
    if Fingerprint([a]) == Fingerprint([b]) {
      FirstColon(a.name, b.name, a.input, b.input);
    }
  }

  /** Where the separators can be confused, so can batches: one call passes for two. */
  lemma OneCallPassesForTwo(id: string, name: string, x: string, other: string, y: string)
    ensures var one := [Call(id, name, x + "|" + other + ":" + y)];
            var two := [Call(id, name, x), Call(id, other, y)];
            Fingerprint(one) == Fingerprint(two) && !SameCalls(one, two) && !Apart(one, two)
  {
    var one, two := [Call(id, name, x + "|" + other + ":" + y)], [Call(id, name, x), Call(id, other, y)];
    PrintParts(one);
    PrintParts(two);
    assert two[1..] == [Call(id, other, y)];
    PrintParts(two[1..]);
    var rest := other + ":" + y;
    assert x + "|" + other + ":" + y == x + "|" + rest;
    assert x + ("|" + rest) == x + "|" + rest;
    assert two[0].input + "|" <= one[0].input;
  }

  predicate SameFrom(prints: seq<string>, from: nat) {
    forall i | from <= i < |prints| :: prints[i] == prints[|prints| - 1]
  }

  /**
    What the last of a run's tool batches calls for. It is stuck when it is the
    `stuck`-th identical batch in a row. It is nudged when every batch of the run so far
    is identical to it and their number lies in [nudge, stuck).
   */
  function VerdictFor(prints: seq<string>, nudge: nat, stuck: nat): Verdict {
    if |prints| >= stuck && SameFrom(prints, |prints| - stuck) then Stuck
    else if nudge <= |prints| < stuck && SameFrom(prints, 0) then Nudge
    else Dispatch
  }

  /** A batch that differs from any earlier one is never nudged, however often it is repeated. */
  lemma LateLoopIsNeverNudged(prints: seq<string>, i: nat, nudge: nat, stuck: nat)
    requires i < |prints| && prints[i] != prints[|prints| - 1]
    ensures !VerdictFor(prints, nudge, stuck).Nudge?
  {
  }

  /** With thresholds 3 and 5: three equal batches are nudged, unless another batch came before them. */
  lemma OneOtherBatchSuffices(a: string, b: string)
    requires a != b
    ensures VerdictFor([b, b, b], 3, 5) == Nudge && VerdictFor([a, b, b, b], 3, 5) == Dispatch
  {
    LateLoopIsNeverNudged([a, b, b, b], 0, 3, 5);
    assert [b, b, b][2] == b;
  }

  // ---- The course of a run.

  /**
    Where the loop stands: nothing under way; waiting for an answer; an answer, before and
    after its `MessageStop`; an answer recorded that asks for nothing, or for a batch not yet
    judged; the calls of a batch still to be nudged; a batch in flight; a stuck batch.
   */
  datatype Stage =
    | Idle
    | Asking
    | Replied(response: Response)
    | Closed(response: Response)
    | Spoken(response: Response)
    | Due(calls: seq<Call>)
    | Nudging(calls: seq<Call>)
    | Dispatching(batch: seq<Call>, flight: Flight)
    | Halted(calls: seq<Call>)

  /** Nothing is left to do for the turn: the next request may be made. */
  predicate Settled(s: Stage) {
    s.Idle? || (s.Nudging? && s.calls == []) || (s.Dispatching? && s.flight == Landed(multiset{}))
  }

  function Recorded(response: Response): Stage {
    var calls := ToolCalls(response.parts);
    if calls == [] then Spoken(response) else Due(calls)
  }

  function After(verdict: Verdict, calls: seq<Call>): Stage {
    match verdict
    case Stuck => Halted(calls)
    case Nudge => Nudging(calls)
    case Dispatch => Dispatching(calls, Grounded(calls))
  }

  /**
    The fingerprints of the batches received so far; the stage; and whether every step kept
    to its stage: requests only once the turn is settled; the answer recorded is the
    provider's; every batch is judged by its own fingerprint as `VerdictFor` says; a batch
    judged `Nudge` is answered call by call with nudges; in a batch judged `Dispatch` each
    call is announced, then executed, then reported, once, and its `ToolComplete` reports that
    execution; and nothing follows a stuck batch.
   */
  datatype Course = Course(prints: seq<string>, stage: Stage, exact: bool)

  function Take(c: Course, allowed: bool, stage: Stage): Course {
    if allowed then c.(stage := stage) else c.(exact := false)
  }

  ghost function Steer(c: Course, e: Entry, nudge: nat, stuck: nat): Course {
    match e
    case Asked(_) => Take(c, Settled(c.stage), Asking)
    case Answered(response) => Take(c, c.stage.Asking?, Replied(response))
    case Emitted(event, accepted) => Announce(c, event, accepted)
    case Pushed(m, false) =>
      if !m.role.Assistant? then c
      else if c.stage.Closed? && m.parts == c.stage.response.parts then c.(stage := Recorded(c.stage.response))
      else c.(exact := false)
    case Judged(f, verdict) =>
      if c.stage.Due? && f == Fingerprint(c.stage.calls) && verdict == VerdictFor(c.prints + [f], nudge, stuck)
      then Course(c.prints + [f], After(verdict, c.stage.calls), c.exact)
      else c.(exact := false)
    case Pushed(m, true) =>
      if c.stage.Nudging? && c.stage.calls != [] && m == NudgeMessage(c.stage.calls[0].id)
      then c.(stage := Nudging(c.stage.calls[1..]))
      else c.(exact := false)
    case Executed(call, outcome) =>
      if c.stage.Dispatching? && Holds(c.stage.flight, call, Running)
      then c.(stage := Dispatching(c.stage.batch, Ran(c.stage.flight, call, outcome)))
      else c.(exact := false)
    case Reported(call, outcome, event, _) =>
      if c.stage.Dispatching? && Holds(c.stage.flight, call, Returned(outcome)) && IsReport(event, call, outcome)
      then c.(stage := Dispatching(c.stage.batch, Filed(c.stage.flight, call, outcome)))
      else c.(exact := false)
    case _ => c
  }

  function Announce(c: Course, e: Event, accepted: bool): Course {
    match e
    case MessageStop =>
      if !accepted then c
      else if c.stage.Replied? then c.(stage := Closed(c.stage.response))
      else c.(exact := false)
    case ToolExecuting(id) =>
      if c.stage.Dispatching? && id in c.stage.flight.waiting
      then c.(stage := Dispatching(c.stage.batch, Announced(c.stage.flight, id, accepted)))
      else c.(exact := false)
    case ToolComplete(_, _, _, _) => c.(exact := false)
    case _ => c
  }

  ghost function CourseOf(t: Trace, nudge: nat, stuck: nat): Course {
    if t.Start? then Course([], Idle, true) else Steer(CourseOf(t.before, nudge, stuck), t.last, nudge, stuck)
  }

  /** The sliding window: the last `size` fingerprints. */
  function Window(prints: seq<string>, size: nat): seq<string> {
    if |prints| <= size then prints else prints[|prints| - size..]
  }

  lemma SlideWindow(prints: seq<string>, f: string, size: nat)
    requires size > 0
    ensures var pushed := Window(prints, size) + [f];
            Window(prints + [f], size) == if |pushed| > size then pushed[1..] else pushed
  {
  }

  /** The loop's two tests on its window decide exactly `VerdictFor`. */
  lemma WindowDecides(prints: seq<string>, nudge: nat, stuck: nat)
    requires prints != [] && nudge < stuck
    ensures var w, f := Window(prints, stuck), prints[|prints| - 1];
            var same := forall g | g in w :: g == f;
            VerdictFor(prints, nudge, stuck) ==
            if |w| >= stuck && same then Stuck else if |w| >= nudge && same then Nudge else Dispatch
  {
    var w, f := Window(prints, stuck), prints[|prints| - 1];
    var from := if |prints| <= stuck then 0 else |prints| - stuck;
    assert w == prints[from..];
    assert (forall g | g in w :: g == f) <==> SameFrom(prints, from) by {
      if SameFrom(prints, from) {
        forall g | g in w ensures g == f {
          var k :| 0 <= k < |w| && w[k] == g;
          assert prints[from + k] == g;
        }
      }
      if forall g | g in w :: g == f {
        forall i | from <= i < |prints| ensures prints[i] == f {
          assert w[i - from] in w;
        }
      }
    }
  }

  /** The batch an entry records, if any. */
  function NewBatch(e: Entry): seq<seq<Call>> {
    if e.Pushed? && !e.nudge && e.message.role.Assistant? && ToolCalls(e.message.parts) != []
    then [ToolCalls(e.message.parts)] else []
  }

  /** The batches of tool calls a run recorded, in order. */
  function Batches(t: Trace): seq<seq<Call>> {
    if t.Start? then [] else Batches(t.before) + NewBatch(t.last)
  }

  function Prints(batches: seq<seq<Call>>): seq<string> {
    seq(|batches|, i requires 0 <= i < |batches| => Fingerprint(batches[i]))
  }

  lemma PrintsOfMore(a: seq<seq<Call>>, b: seq<seq<Call>>)
    ensures Prints(a + b) == Prints(a) + Prints(b)
  {
  }

  /** The fingerprints judged, and the one due. */
  function AllPrints(c: Course): seq<string> {
    c.prints + if c.stage.Due? then [Fingerprint(c.stage.calls)] else []
  }

  lemma ExactBefore(c: Course, e: Entry, nudge: nat, stuck: nat)
    requires Steer(c, e, nudge, stuck).exact
    ensures c.exact
  {
  }

  lemma RecordingMakesDue(c: Course, e: Entry, nudge: nat, stuck: nat)
    requires Steer(c, e, nudge, stuck).exact && NewBatch(e) != []
    ensures !c.stage.Due? && Steer(c, e, nudge, stuck) == c.(stage := Due(NewBatch(e)[0]))
  {
  }

  lemma JudgingTakesTheDue(c: Course, e: Entry, nudge: nat, stuck: nat)
    requires Steer(c, e, nudge, stuck).exact && e.Judged?
    ensures AllPrints(Steer(c, e, nudge, stuck)) == AllPrints(c)
  {
  }

  lemma NothingElseMatters(c: Course, e: Entry, nudge: nat, stuck: nat)
    requires Steer(c, e, nudge, stuck).exact && NewBatch(e) == [] && !e.Judged?
    ensures Steer(c, e, nudge, stuck).prints == c.prints
    ensures Steer(c, e, nudge, stuck).stage == c.stage || (!c.stage.Due? && !Steer(c, e, nudge, stuck).stage.Due?)
  {
  }

  lemma JudgedInOrder(c: Course, e: Entry, nudge: nat, stuck: nat)
    requires Steer(c, e, nudge, stuck).exact
    ensures AllPrints(Steer(c, e, nudge, stuck)) == AllPrints(c) + Prints(NewBatch(e))
  {
    if NewBatch(e) != [] {
      RecordingMakesDue(c, e, nudge, stuck);
    } else if e.Judged? {
      JudgingTakesTheDue(c, e, nudge, stuck);
    } else {
      NothingElseMatters(c, e, nudge, stuck);
    }
  }

  /** In a run that kept its course the batches judged, and the one due if any, are the batches recorded, one by one. */
  lemma {:induction false} EveryBatchIsJudged(t: Trace, nudge: nat, stuck: nat)
    requires CourseOf(t, nudge, stuck).exact
    ensures Prints(Batches(t)) == AllPrints(CourseOf(t, nudge, stuck))
  {
    if t.Then? {
      ExactBefore(CourseOf(t.before, nudge, stuck), t.last, nudge, stuck);
      EveryBatchIsJudged(t.before, nudge, stuck);
      JudgedInOrder(CourseOf(t.before, nudge, stuck), t.last, nudge, stuck);
      PrintsOfMore(Batches(t.before), NewBatch(t.last));
    }
  }

  /** The batches' fingerprints tell them apart. */
  ghost predicate Tellable(batches: seq<seq<Call>>) {
    && (forall i | 0 <= i < |batches| :: PlainNames(batches[i]))
    && forall i, j | 0 <= i < |batches| && 0 <= j < |batches| :: Apart(batches[i], batches[j])
  }

  /** Stuck is the last `stuck` batches asking for the same calls, and nothing else. */
  lemma StuckMeansRepeated(batches: seq<seq<Call>>, nudge: nat, stuck: nat)
    requires Tellable(batches) && batches != []
    ensures var last := batches[|batches| - 1];
            VerdictFor(Prints(batches), nudge, stuck) == Stuck <==>
            |batches| >= stuck && forall i | |batches| - stuck <= i < |batches| :: SameCalls(batches[i], last)
  {
    forall i | 0 <= i < |batches|
      ensures Prints(batches)[i] == Prints(batches)[|batches| - 1] <==> SameCalls(batches[i], batches[|batches| - 1])
    {
      PrintTellsBatchesApart(batches[i], batches[|batches| - 1]);
    }
  }

  /** And a nudge is all of them asking for the same, while they are not yet too many. */
  lemma NudgeMeansRepeated(batches: seq<seq<Call>>, nudge: nat, stuck: nat)
    requires Tellable(batches) && batches != [] && nudge < stuck
    ensures var last := batches[|batches| - 1];
            VerdictFor(Prints(batches), nudge, stuck) == Nudge <==>
            nudge <= |batches| < stuck && forall i | 0 <= i < |batches| :: SameCalls(batches[i], last)
  {
    forall i | 0 <= i < |batches|
      ensures Prints(batches)[i] == Prints(batches)[|batches| - 1] <==> SameCalls(batches[i], batches[|batches| - 1])
    {
      PrintTellsBatchesApart(batches[i], batches[|batches| - 1]);
    }
  }

  // ---- The journal and the memory.

  /** Messages grouped by the assistant turn they follow; the order inside a group is forgotten. */
  datatype Groups = Groups(closed: seq<multiset<Message>>, open: multiset<Message>)

  function Add(g: Groups, m: Message): Groups {
    if m.role.Assistant? then Groups(g.closed + [g.open], multiset{m})
    else Groups(g.closed, g.open + multiset{m})
  }

  /** The group still open, with more messages in it. */
  function Joined(g: Groups, more: multiset<Message>): Groups {
    Groups(g.closed, g.open + more)
  }

  lemma JoinedTwice(g: Groups, a: multiset<Message>, b: multiset<Message>)
    ensures Joined(Joined(g, a), b) == Joined(g, a + b)
    ensures Joined(g, multiset{}) == g
  {
    assert g.open + a + b == g.open + (a + b);
  }

  lemma JoinNext(g: Groups, messages: seq<Message>, i: nat)
    requires i < |messages| && !messages[i].role.Assistant?
    ensures messages[..i + 1] == messages[..i] + [messages[i]]
    ensures Add(Joined(g, multiset(messages[..i])), messages[i]) == Joined(g, multiset(messages[..i + 1]))
  {
    assert messages[..i + 1] == messages[..i] + [messages[i]];
    JoinedTwice(g, multiset(messages[..i]), multiset{messages[i]});
  }

  /** The message an event stands for, where it stands for one. */
  function MessageOf(e: Event): Option<Message> {
    match e
    case InputMessage(input) => Some(ToMessage(input))
    case MessageComplete(m) => Some(m)
    case ToolComplete(m, _, _, _) => Some(m)
    case _ => None
  }

  const NO_MESSAGES := Groups([], multiset{})

  /**
    The event reports what the toolbox answered: the outcome's own text, bounded, with its
    error flag and artifacts; the original size is the larger of the reported size and the
    text's; and every byte is either in the output or counted as truncated.
   */
  ghost predicate IsReport(e: Event, call: Call, o: ToolOutcome) {
    && e.ToolComplete? && !o.StopRun?
    && |e.result.parts| == 1 && e.result.parts[0].ToolResult?
    && var output := e.result.parts[0].output;
    && e.result == ResultMessage(call, output, o) && IsBounded(Said(o), output)
    && e.originalBytes == (if ReportedBytes(o) > |Said(o)| then ReportedBytes(o) else |Said(o)|)
    && e.truncatedBytes + |output| == e.originalBytes && e.spilledBytes == SpilledBytes(o)
  }

  /** What a report tells its reader: the call it answers, and all of the outcome. */
  lemma ReportTells(e: Event, call: Call, o: ToolOutcome)
    requires IsReport(e, call, o)
    ensures e.result.id == "result:" + call.id && e.result.role == Tool && |e.result.parts| == 1
    ensures var part := e.result.parts[0];
            && part.ToolResult? && part.callId == call.id && |part.output| + e.truncatedBytes == e.originalBytes
            && match o
               case Value(rendered, artifacts, original, spilled) =>
                 && !part.isError && part.artifacts == artifacts && IsBounded(rendered, part.output)
                 && e.originalBytes >= original && e.originalBytes >= |rendered| && e.spilledBytes == spilled
               case Failure(error) =>
                 && part.isError && part.artifacts == [] && IsBounded(error, part.output)
                 && e.originalBytes == |error| && e.spilledBytes == 0
               case StopRun => false
  {
  }

  /**
    The messages a reader of the accepted events sees, and the messages the run appended to
    its own history, nudges and compaction boundaries aside.
   */
  datatype Mail = Mail(journal: Groups, memory: Groups)

  function Mailed(m: Mail, e: Event, accepted: bool): Mail {
    if accepted && MessageOf(e).Some? then m.(journal := Add(m.journal, MessageOf(e).value)) else m
  }

  function Deliver(m: Mail, e: Entry): Mail {
    match e
    case Emitted(event, accepted) => Mailed(m, event, accepted)
    case Reported(_, _, event, accepted) => Mailed(m, event, accepted)
    case Pushed(message, false) => m.(memory := Add(m.memory, message))
    case _ => m
  }

  function MailOf(t: Trace): Mail {
    if t.Start? then Mail(NO_MESSAGES, NO_MESSAGES) else Deliver(MailOf(t.before), t.last)
  }

  /** The journal holds everything the memory holds, and more only in its last group. */
  predicate AtMostLastGroupAhead(journal: Groups, memory: Groups) {
    journal.closed == memory.closed && memory.open <= journal.open
  }

  // ---- The log of a run.

  /** What the readings depend on besides the trace. */
  datatype Limits = Limits(plan: Plan, nudge: nat, stuck: nat)

  /** A trace, and its four readings kept up to date entry by entry. */
  datatype Log = Log(trace: Trace, talk: Dialogue, costs: Ledger, course: Course, mail: Mail)

  ghost function Begin(h: seq<Message>, context: nat): Log {
    Log(Start, Dialogue(h, Owed(h), [], context, Untried, true, true, 0),
        Ledger(None, [], NOTHING_SPENT, 0, 0, false, false), Course([], Idle, true), Mail(NO_MESSAGES, NO_MESSAGES))
  }

  ghost function Noted(l: Log, e: Entry, limits: Limits): Log {
    Log(Then(l.trace, e), Follow(l.talk, e, limits.plan), Enter(l.costs, e),
        Steer(l.course, e, limits.nudge, limits.stuck), Deliver(l.mail, e))
  }

  datatype Reading = TheTalk | TheCosts | TheCourse | TheMail

  datatype Page = OfTalk(talk: Dialogue) | OfCosts(costs: Ledger) | OfCourse(course: Course) | OfMail(mail: Mail)

  ghost function Read(which: Reading, h: seq<Message>, limits: Limits, t: Trace): Page {
    match which
    case TheTalk => OfTalk(DialogueOf(h, limits.plan, t))
    case TheCosts => OfCosts(LedgerOf(t))
    case TheCourse => OfCourse(CourseOf(t, limits.nudge, limits.stuck))
    case TheMail => OfMail(MailOf(t))
  }

  function Kept(which: Reading, l: Log): Page {
    match which
    case TheTalk => OfTalk(l.talk)
    case TheCosts => OfCosts(l.costs)
    case TheCourse => OfCourse(l.course)
    case TheMail => OfMail(l.mail)
  }

  /** Each reading the log keeps is the reading of its trace. */
  ghost predicate IsTrue(l: Log, h: seq<Message>, limits: Limits) {
    forall which :: Read(which, h, limits, l.trace) == Kept(which, l)
  }

  lemma BeginIsTrue(h: seq<Message>, limits: Limits)
    ensures IsTrue(Begin(h, limits.plan.context), h, limits)
  {
  }

  lemma NotedIsTrue(l: Log, e: Entry, h: seq<Message>, limits: Limits)
    requires IsTrue(l, h, limits)
    ensures IsTrue(Noted(l, e, limits), h, limits)
  {
    var l' := Noted(l, e, limits);
    forall which ensures Read(which, h, limits, l'.trace) == Kept(which, l') {
      assert Read(which, h, limits, l.trace) == Kept(which, l);
    }
  }

  lemma TrueLog(l: Log, h: seq<Message>, limits: Limits)
    requires IsTrue(l, h, limits)
    ensures l.talk == DialogueOf(h, limits.plan, l.trace) && l.costs == LedgerOf(l.trace)
    ensures l.course == CourseOf(l.trace, limits.nudge, limits.stuck) && l.mail == MailOf(l.trace)
  {
    assert Read(TheTalk, h, limits, l.trace) == Kept(TheTalk, l);
    assert Read(TheCosts, h, limits, l.trace) == Kept(TheCosts, l);
    assert Read(TheCourse, h, limits, l.trace) == Kept(TheCourse, l);
    assert Read(TheMail, h, limits, l.trace) == Kept(TheMail, l);
  }

  /** What a true log says of its whole trace. */
  lemma LogAddsUp(l: Log, h: seq<Message>, limits: Limits)
    requires IsTrue(l, h, limits)
    ensures l.talk.owed == Owed(l.talk.history) && AddsUp(l.costs)
  {
    TrueLog(l, h, limits);
    OwedKeepsUp(h, limits.plan, l.trace);
    BankingTotals(l.trace);
  }

  lemma LogKeepsTheTurn(l: Log, h: seq<Message>, limits: Limits)
    requires IsTrue(l, h, limits) && l.talk.faithful && (l.talk.turn != [] ==> IsSafeBoundary(l.talk.turn[0]))
    ensures RequestsEndWithTheTurn(h, limits.plan, l.trace) && EndsWith(l.talk.history, l.talk.turn)
  {
    TrueLog(l, h, limits);
    TurnSurvives(h, limits.plan, l.trace);
  }

  // ---- What equal groups mean.

  /** The messages of the accepted events, in order. */
  function Accepted(t: Trace): seq<Message> {
    if t.Start? then []
    else
      match t.last
      case Emitted(e, true) => Accepted(t.before) + (if MessageOf(e).Some? then [MessageOf(e).value] else [])
      case Reported(_, _, e, true) => Accepted(t.before) + (if MessageOf(e).Some? then [MessageOf(e).value] else [])
      case _ => Accepted(t.before)
  }

  /** The messages the run appended to its history, nudges and boundaries aside, in order. */
  function Appended(t: Trace): seq<Message> {
    if t.Start? then []
    else
      match t.last
      case Pushed(m, false) => Appended(t.before) + [m]
      case _ => Appended(t.before)
  }

  function Turns(ms: seq<Message>): seq<Message> {
    if ms == [] then []
    else Turns(ms[..|ms| - 1]) + if ms[|ms| - 1].role.Assistant? then [ms[|ms| - 1]] else []
  }

  /** The messages after the `n`th assistant message and before the next. */
  function Span(ms: seq<Message>, n: nat): multiset<Message> {
    if ms == [] then multiset{}
    else
      var before, m := ms[..|ms| - 1], ms[|ms| - 1];
      Span(before, n) + if !m.role.Assistant? && |Turns(before)| == n then multiset{m} else multiset{}
  }

  /** The same assistant messages in the same order, and after each the same messages in whatever order. */
  ghost predicate SameStory(a: seq<Message>, b: seq<Message>) {
    Turns(a) == Turns(b) && forall n | 0 <= n <= |Turns(a)| :: Span(a, n) == Span(b, n)
  }

  function GroupsOf(ms: seq<Message>): Groups {
    if ms == [] then NO_MESSAGES else Add(GroupsOf(ms[..|ms| - 1]), ms[|ms| - 1])
  }

  lemma MailOnce(t: Trace)
    requires t.Then? && MailOf(t.before) == Mail(GroupsOf(Accepted(t.before)), GroupsOf(Appended(t.before)))
    ensures MailOf(t) == Mail(GroupsOf(Accepted(t)), GroupsOf(Appended(t)))
  {
    if Accepted(t) != Accepted(t.before) { assert Accepted(t)[..|Accepted(t)| - 1] == Accepted(t.before); }
    if Appended(t) != Appended(t.before) { assert Appended(t)[..|Appended(t)| - 1] == Appended(t.before); }
  }

  /** The journal groups the accepted messages, the memory the appended ones. */
  lemma {:induction false} MailGroupsMessages(t: Trace)
    ensures MailOf(t) == Mail(GroupsOf(Accepted(t)), GroupsOf(Appended(t)))
  {
    if t.Then? {
      MailGroupsMessages(t.before);
      MailOnce(t);
    }
  }

  function GroupAt(g: Groups, n: nat): multiset<Message>
    requires n <= |g.closed|
  {
    if n < |g.closed| then g.closed[n] else g.open
  }

  function Opener(ms: seq<Message>, n: nat): multiset<Message>
    requires n <= |Turns(ms)|
  {
    if n == 0 then multiset{} else multiset{Turns(ms)[n - 1]}
  }

  lemma {:induction false} NothingAfterTheLast(ms: seq<Message>, n: nat)
    requires n > |Turns(ms)|
    ensures Span(ms, n) == multiset{}
  {
    if ms != [] { NothingAfterTheLast(ms[..|ms| - 1], n); }
  }

  lemma {:induction false} TurnsAreAssistants(ms: seq<Message>)
    ensures forall m | m in Turns(ms) :: m.role.Assistant?
    ensures forall n: nat, m | m in Span(ms, n) :: !m.role.Assistant?
  {
    if ms != [] { TurnsAreAssistants(ms[..|ms| - 1]); }
  }

  /** Each group is an assistant message and what follows it up to the next. */
  lemma {:induction false} GroupsSpell(ms: seq<Message>, n: nat)
    requires n <= |Turns(ms)|
    ensures |GroupsOf(ms).closed| == |Turns(ms)|
    ensures GroupAt(GroupsOf(ms), n) == Opener(ms, n) + Span(ms, n)
  {
    if ms != [] {
      var before, m := ms[..|ms| - 1], ms[|ms| - 1];
      if n <= |Turns(before)| {
        GroupsSpell(before, n);
        assert Opener(ms, n) == Opener(before, n);
        Regroup(Opener(ms, n), Span(before, n), if !m.role.Assistant? && |Turns(before)| == n then multiset{m} else multiset{});
      } else {
        GroupsSpell(before, n - 1);
        NothingAfterTheLast(before, n);
      }
    }
  }

  lemma OneOpener(x: multiset<Message>, y: multiset<Message>, a: Message, b: Message)
    requires a.role.Assistant? && b.role.Assistant?
    requires (forall m | m in x :: !m.role.Assistant?) && (forall m | m in y :: !m.role.Assistant?)
    requires multiset{a} + x == multiset{b} + y
    ensures a == b && x == y
  {
    assert a in multiset{a} + x;
    assert a in multiset{b} + y;
    TakeBack(a, x);
    TakeBack(a, y);
  }

  lemma SameGroupHere(a: seq<Message>, b: seq<Message>, n: nat)
    requires GroupsOf(a) == GroupsOf(b) && n <= |Turns(a)| && n <= |Turns(b)|
    ensures Span(a, n) == Span(b, n) && (n > 0 ==> Turns(a)[n - 1] == Turns(b)[n - 1])
  {
    GroupsSpell(a, n);
    GroupsSpell(b, n);
    TurnsAreAssistants(a);
    TurnsAreAssistants(b);
    if n > 0 {
      assert Turns(a)[n - 1] in Turns(a) && Turns(b)[n - 1] in Turns(b);
      OneOpener(Span(a, n), Span(b, n), Turns(a)[n - 1], Turns(b)[n - 1]);
    } else {
      assert multiset{} + Span(a, 0) == Span(a, 0) && multiset{} + Span(b, 0) == Span(b, 0);
    }
  }

  lemma SameCount(a: seq<Message>, b: seq<Message>)
    requires GroupsOf(a) == GroupsOf(b)
    ensures |Turns(a)| == |Turns(b)|
  {
    GroupsSpell(a, 0);
    GroupsSpell(b, 0);
  }

  lemma SameTurn(a: seq<Message>, b: seq<Message>, i: nat)
    requires GroupsOf(a) == GroupsOf(b) && i < |Turns(a)| == |Turns(b)|
    ensures Turns(a)[i] == Turns(b)[i]
  {
    SameGroupHere(a, b, i + 1);
  }

  lemma SameTurns(a: seq<Message>, b: seq<Message>)
    requires GroupsOf(a) == GroupsOf(b)
    ensures Turns(a) == Turns(b)
  {
    SameCount(a, b);
    var x, y := Turns(a), Turns(b);
    forall i | 0 <= i < |x| ensures x[i] == y[i] {
      SameTurn(a, b, i);
    }
  }

  /** Equal groups mean equal messages, up to their order between two assistant messages. */
  lemma SameGroupsSameStory(a: seq<Message>, b: seq<Message>)
    requires GroupsOf(a) == GroupsOf(b)
    ensures SameStory(a, b)
  {
    SameTurns(a, b);
    forall n | 0 <= n <= |Turns(a)| ensures Span(a, n) == Span(b, n) {
      SameGroupHere(a, b, n);
    }
  }

  lemma LogTellsOneStory(l: Log, h: seq<Message>, limits: Limits)
    requires IsTrue(l, h, limits) && l.mail.journal == l.mail.memory
    ensures SameStory(Accepted(l.trace), Appended(l.trace))
  {
    TrueLog(l, h, limits);
    MailGroupsMessages(l.trace);
    SameGroupsSameStory(Accepted(l.trace), Appended(l.trace));
  }

  lemma LogJudgesEveryBatch(l: Log, h: seq<Message>, limits: Limits)
    requires IsTrue(l, h, limits) && l.course.exact && !l.course.stage.Due?
    ensures l.course.prints == Prints(Batches(l.trace))
  {
    TrueLog(l, h, limits);
    EveryBatchIsJudged(l.trace, limits.nudge, limits.stuck);
    assert l.course.prints + [] == l.course.prints;
  }
}
