/**
  The agent: one run of the tool loop, with automatic compaction.

  The provider, the toolbox, the event sink, the cancellation token and the
  compaction policy are arbitrary: each answer they give is a havocked value, so
  every statement below holds for all of them.
 */
module Agents {
  import opened Wrappers
  import opened Messages
  import opened Histories
  import opened Compaction
  import opened ToolOutput
  import opened ToolBatch
  import opened Runs
  import opened Strings
  import opened Decimals

  datatype Config = Config(maxIterations: nat, stuckThreshold: nat, nudgeThreshold: nat, compaction: Option<Budget>)

  /** Push the fingerprint, drop the oldest beyond the window, and compare. */
  method SlideAndJudge(recent: seq<string>, fingerprint: string, config: Config, ghost prints: seq<string>)
    returns (after: seq<string>, verdict: Verdict)
    requires config.nudgeThreshold < config.stuckThreshold && recent == Window(prints, config.stuckThreshold)
    ensures after == Window(prints + [fingerprint], config.stuckThreshold)
    ensures verdict == VerdictFor(prints + [fingerprint], config.nudgeThreshold, config.stuckThreshold)
  {
    SlideWindow(prints, fingerprint, config.stuckThreshold);
    WindowDecides(prints + [fingerprint], config.nudgeThreshold, config.stuckThreshold);
    after := recent + [fingerprint];
    if |after| > config.stuckThreshold {
      after := after[1..];
    }
    var same := forall f | f in after :: f == fingerprint;
    if |after| >= config.stuckThreshold && same {
      verdict := Stuck;
    } else if |after| >= config.nudgeThreshold && same {
      verdict := Nudge;
    } else {
      verdict := Dispatch;
    }
  }

  /** The results in request order, and the stopped calls in request order, unless the sink refused one. */
  method Collect(calls: seq<Call>, states: seq<CallState>)
    returns (r: Result<(seq<Message>, seq<Call>), AgentError>, ghost ds: seq<Dispatched>)
    requires InFlight(calls, states) && forall i | 0 <= i < |states| :: Finished(states[i])
    ensures r.Err? ==> r.error == EventSink && AnyRefused(states)
    ensures r.Ok? ==>
              && ProducedInOrder(ds, calls) && r.value == (Results(ds), Stops(ds))
              && forall i | 0 <= i < |states| :: states[i] == Done(ds[i])
  {
    var messages, stopped := [], [];
    ds := [];
    for i := 0 to |states|
      invariant |ds| == i && messages == Results(ds) && stopped == Stops(ds)
      invariant forall k | 0 <= k < i :: states[k] == Done(ds[k])
    {
      if Refused(states[i]) {
        return Err(EventSink), [];
      }
      var produced := states[i].produced;
      ResultsAppend(ds, produced);
      ds := ds + [produced];
      if produced.Recorded? {
        messages := messages + [produced.message];
      } else {
        stopped := stopped + [produced.call];
      }
    }
    r := Ok((messages, stopped));
  }

  /** The event that reports an execution. */
  method WriteReport(call: Call, outcome: ToolOutcome) returns (e: Event)
    requires !outcome.StopRun?
    ensures IsReport(e, call, outcome) && Produced(Recorded(e.result), call)
  {
    var bounded := BoundToolOutput(Said(outcome));
    var reported := ReportedBytes(outcome);
    var original := if reported > bounded.originalBytes then reported else bounded.originalBytes;
    var truncated := SaturatingSub(original, bounded.retainedBytes);
    var m := ResultMessage(call, bounded.output, outcome);
    e := ToolComplete(m, original, truncated, SpilledBytes(outcome));
  }

  class Agent {
    const config: Config
    const hasPolicy: bool
    var history: seq<Message>
    var lastContextTokens: nat

    // The current run: its log, the history and the prompt size it began with, the message its input became,
    // and whether history and input together kept the law.
    ghost var log: Log
    ghost var base: seq<Message>
    ghost var baseContext: nat
    ghost var opening: Message
    ghost var lawful: bool

    /** The thresholds make sense, and the log is true. */
    ghost predicate Valid()
      reads this
    {
      config.nudgeThreshold < config.stuckThreshold && IsTrue(log, base, Bounds())
    }

    ghost function Bounds(): Limits
      reads this
    {
      Limits(Scheme(), config.nudgeThreshold, config.stuckThreshold)
    }

    /** When and how far this agent compacts. Without a policy it never does by itself. */
    ghost function Scheme(): Plan
      reads this
    {
      Plan(RetainTokens(), TriggerTokens(), baseContext)
    }

    function TriggerTokens(): Option<nat> {
      if config.compaction.Some? && hasPolicy then Some(config.compaction.value.TriggerTokens()) else None
    }

    /** `build` refuses thresholds under which no batch could be nudged before it is stuck. */
    static method Build(config: Config, hasPolicy: bool, history: seq<Message>, contextTokens: nat)
      returns (r: Result<Agent, (nat, nat)>)
      ensures r.Ok? <==> config.nudgeThreshold < config.stuckThreshold
      ensures r.Err? ==> r.error == (config.nudgeThreshold, config.stuckThreshold)
      ensures r.Ok? ==> fresh(r.value) && r.value.Valid() && r.value.config == config && r.value.hasPolicy == hasPolicy
      ensures r.Ok? ==> r.value.history == history && r.value.lastContextTokens == contextTokens
    {
      if config.nudgeThreshold >= config.stuckThreshold {
        return Err((config.nudgeThreshold, config.stuckThreshold));
      }
      var a := new Agent(config, hasPolicy, history, contextTokens);
      r := Ok(a);
    }

    constructor (config: Config, hasPolicy: bool, history: seq<Message>, contextTokens: nat)
      ensures this.config == config && this.hasPolicy == hasPolicy
      ensures this.history == history && lastContextTokens == contextTokens
      ensures IsTrue(log, base, Bounds())
    {
      this.config := config;
      this.hasPolicy := hasPolicy;
      this.history := history;
      lastContextTokens := contextTokens;
      log, base, baseContext := Begin(history, contextTokens), history, contextTokens;
      new;
      BeginIsTrue(history, Bounds());
    }

    // ---- What holds of a run.

    ghost function Talk(): Dialogue
      reads this
    {
      log.talk
    }

    ghost function Costs(): Ledger
      reads this
    {
      log.costs
    }

    ghost function Conduct(): Course
      reads this
    {
      log.course
    }

    ghost function Post(): Mail
      reads this
    {
      log.mail
    }

    /** If the run began lawfully, exactly these calls are unanswered. */
    ghost predicate Owes(ids: Ids)
      reads this
    {
      lawful ==> Talk().owed == Some(ids)
    }

    /** The history and the requests follow from the trace, and no request broke the law. */
    ghost predicate Traced()
      reads this
    {
      && history == Talk().history && Talk().faithful && (lawful ==> Talk().balanced)
      && (Talk().turn != [] ==> Talk().turn[0] == opening)
    }

    /** The same, once the run has pushed its input. */
    ghost predicate Underway()
      reads this
    {
      Traced() && Talk().turn != []
    }

    /** What every point between the loop's phases, and every exit, satisfies. */
    ghost predicate Sound(spent: Accounting)
      reads this
    {
      && Traced() && (lawful ==> Talk().owed.Some?)
      && spent == Costs().spent
      && Conduct().exact
      && AtMostLastGroupAhead(Post().journal, Post().memory)
      && Costs().aborts == 0
      && Talk().asks <= config.maxIterations
    }

    /** Nothing has gone wrong yet, and nothing is half reported. */
    ghost predicate Calm(spent: Accounting)
      reads this
    {
      && Sound(spent) && Underway() && Post().journal == Post().memory
      && Costs().completions == 0 && !Costs().cancelled && !Costs().refused
    }

    /** The agent knows its prompt size, and no compaction has been tried at it. */
    ghost predicate Steady(spent: Accounting)
      reads this
    {
      Calm(spent) && InStep()
    }

    ghost predicate InStep()
      reads this
    {
      lastContextTokens == Talk().context && Talk().attempt.Untried?
    }

    /** The requests made, the prompt size and the attempt at compacting. */
    ghost function Pace(): (nat, nat, Attempt)
      reads this
    {
      (Talk().asks, Talk().context, Talk().attempt)
    }

    /** What the top of the loop satisfies. */
    ghost predicate AtTop(spent: Accounting)
      reads this
    {
      Steady(spent) && Settled(Conduct().stage) && Owes(multiset{})
    }

    /**
      What the trace says of a failure: cancellation is reported exactly when it was seen, a
      refusing sink exactly when it refused and cancellation was not seen; a provider's error
      leaves its request unanswered; a truncated answer asked for nothing; a stuck batch was
      judged stuck. However the run failed, no batch was left unjudged and no nudge ungiven.
     */
    ghost predicate Because(error: AgentError)
      reads this
    {
      var stage := Conduct().stage;
      && (error.Cancelled? <==> Costs().cancelled)
      && (error.EventSink? <==> Costs().refused && !Costs().cancelled)
      && (error.StuckInLoop? <==> stage.Halted?)
      && !stage.Due? && (stage.Nudging? ==> stage.calls == [])
      && match error
         case StuckInLoop(name, count) => stage.calls != [] && name == stage.calls[0].name && count == config.stuckThreshold
         case Provider => stage.Asking?
         case Truncated => stage.Spoken? && stage.response.stopReason.MaxTokens?
         case MaxIterationsExceeded(max) => max == Talk().asks == config.maxIterations && Settled(stage)
         case _ => true
    }

    ghost predicate Failed(error: AgentError, spent: Accounting)
      reads this
    {
      Sound(spent) && Costs().completions == 0 && Because(error)
    }

    /**
      A completed run ended on the provider's last answer, which asked for nothing and was
      not cut short, and owes nothing. A stopped one executed its whole last batch, and owes
      exactly the calls whose execution stopped it, which it reports whole and in order.
     */
    ghost predicate EndedWith(result: AgentResult)
      reads this
    {
      var stage := Conduct().stage;
      match result
      case Completed(text) =>
        && stage.Spoken? && !stage.response.stopReason.MaxTokens? && text == TextOf(stage.response.parts)
        && history != [] && history[|history| - 1].role.Assistant? && history[|history| - 1].parts == stage.response.parts
        && Owes(multiset{})
      case Stopped(calls) =>
        && calls != [] && stage.Dispatching? && stage.flight == Landed(multiset(calls))
        && IsSubsequence(calls, stage.batch) && Owes(IdsOf(calls))
    }

    /** How a run may have ended. */
    ghost predicate Ended(r: Result<Output, AgentError>, spent: Accounting)
      reads this
    {
      match r
      case Err(error) => Failed(error, spent)
      case Ok(output) =>
        && Sound(spent) && Post().journal == Post().memory
        && !Costs().cancelled && !Costs().refused && Costs().completions == 1
        && output.usage == spent.usage && EndedWith(output.result)
        && log.trace.Then? && log.trace.last == Emitted(RunComplete(spent.usage, Talk().asks, spent.contextTokens), true)
    }

    // ---- The environment.

    ghost method Note(e: Entry)
      requires Valid()
      modifies this`log
      ensures Valid() && log == Noted(old(log), e, Bounds())
    {
      NotedIsTrue(log, e, base, Bounds());
      log := Noted(log, e, Bounds());
    }

    method Emit(e: Event) returns (ok: bool)
      requires Valid()
      modifies this`log
      ensures Valid()
      ensures log.trace == Then(old(log.trace), Emitted(e, ok))
      ensures Talk() == old(Talk()) && Conduct() == Announce(old(Conduct()), e, ok)
      ensures Costs() == Enter(old(Costs()), Emitted(e, ok)) && Post() == Deliver(old(Post()), Emitted(e, ok))
    {
      ok := *;
      Note(Emitted(e, ok));
    }

    /** Emit an event that carries neither a message nor a total and moves nothing. */
    method EmitPlain(e: Event) returns (ok: bool)
      requires e.MessageStart? || e.Compacted? || e.CompactionSkipped?
      requires Valid()
      modifies this`log
      ensures Valid()
      ensures Talk() == old(Talk()) && Conduct() == old(Conduct()) && Post() == old(Post())
      ensures Costs() == old(Costs()).(refused := old(Costs()).refused || (!ok && !Forgivable(e)))
    {
      ok := Emit(e);
    }

    /** Close the message of the provider's answer, which is what pays for it. */
    method EmitStop(ghost response: Response) returns (ok: bool)
      requires Conduct().stage == Replied(response) && Costs().answer == Some(response.usage)
      requires Valid()
      modifies this`log
      ensures Valid()
      ensures Talk() == old(Talk()) && Post() == old(Post())
      ensures Conduct() == if ok then old(Conduct()).(stage := Closed(response)) else old(Conduct())
      ensures !ok ==> Costs() == old(Costs()).(refused := true)
      ensures ok ==> Costs() == old(Costs()).(paid := old(Costs()).paid + [response.usage],
                                              spent := Bank(old(Costs()).spent, response.usage), answer := None)
    {
      ok := Emit(MessageStop);
    }

    /** Announce a call of the batch in flight. */
    method EmitExecuting(call: Call) returns (ok: bool)
      requires Conduct().stage.Dispatching? && call.id in Conduct().stage.flight.waiting
      requires Valid()
      modifies this`log
      ensures Valid()
      ensures Talk() == old(Talk()) && Post() == old(Post())
      ensures Costs() == old(Costs()).(refused := old(Costs()).refused || !ok)
      ensures var stage := old(Conduct()).stage;
              Conduct() == old(Conduct()).(stage := Dispatching(stage.batch, Announced(stage.flight, call.id, ok)))
    {
      ok := Emit(ToolExecuting(call.id));
    }

    /** Report an execution. */
    method EmitReport(e: Event, call: Call, outcome: ToolOutcome) returns (ok: bool)
      requires Conduct().stage.Dispatching? && Holds(Conduct().stage.flight, call, Returned(outcome))
      requires IsReport(e, call, outcome)
      requires Valid()
      modifies this`log
      ensures Valid()
      ensures Talk() == old(Talk())
      ensures Costs() == old(Costs()).(refused := old(Costs()).refused || !ok)
      ensures var stage := old(Conduct()).stage;
              Conduct() == old(Conduct()).(stage := Dispatching(stage.batch, Filed(stage.flight, call, outcome)))
      ensures Post() == if ok then old(Post()).(journal := Add(old(Post()).journal, e.result)) else old(Post())
    {
      ok := *;
      Note(Reported(call, outcome, e, ok));
    }

    /** Whether the token is cancelled by now. */
    method SeeCancelled() returns (yes: bool)
      requires Valid()
      modifies this`log
      ensures Valid()
      ensures Talk() == old(Talk()) && Conduct() == old(Conduct()) && Post() == old(Post())
      ensures Costs() == old(Costs()).(cancelled := old(Costs()).cancelled || yes)
    {
      yes := *;
      if yes {
        Note(CancelSeen);
      }
    }

    /** Whatever the provider answers; `None` is its error. */
    method ProviderAnswer() returns (answer: Option<Response>)
      requires Conduct().stage.Asking?
      requires Valid()
      modifies this`log
      ensures Valid()
      ensures Post() == old(Post())
      ensures answer.None? ==> Talk() == old(Talk()) && Conduct() == old(Conduct()) && Costs() == old(Costs())
      ensures answer.Some? ==> Talk() == old(Talk()).(context := answer.value.usage.input)
      ensures answer.Some? ==> Conduct() == old(Conduct()).(stage := Replied(answer.value))
      ensures answer.Some? ==> Costs() == old(Costs()).(answer := Some(answer.value.usage))
    {
      answer := *;
      if answer.Some? {
        Note(Answered(answer.value));
      }
    }

    /** Whether the policy abandons the compaction. */
    method PolicyAbandons(manual: bool) returns (yes: bool)
      requires Traced() && (manual || IsDue(history, Talk().context, Scheme()))
      requires Valid()
      modifies this`log
      ensures Valid()
      ensures Traced() && Talk() == old(Talk()).(attempt := if yes then Abandoned else old(Talk()).attempt)
      ensures Costs() == old(Costs()) && Conduct() == old(Conduct()) && Post() == old(Post())
    {
      yes := *;
      if yes {
        Note(Vetoed(manual));
      }
    }

    /** Whatever the summariser answers a request with: its text, or `None` for an error. */
    method SummariserAnswer(manual: bool, cut: nat, messages: seq<Message>) returns (text: Option<string>)
      requires Traced() && (manual || IsDue(history, Talk().context, Scheme()))
      requires Foldable(history, RetainTokens(), cut) && IsSummaryRequest(messages, history, cut)
      requires lawful ==> Balanced(messages)
      requires Valid()
      modifies this`log
      ensures Valid()
      ensures Traced() && Talk() == old(Talk()).(balanced := Talk().balanced, attempt := Summarised(cut, text))
      ensures Costs() == old(Costs()) && Conduct() == old(Conduct()) && Post() == old(Post())
    {
      var answer: Option<Response> := *;
      text := if answer.Some? then Some(TextOf(answer.value.parts)) else None;
      Note(AskedSummary(manual, cut, messages, text));
    }

    method CarriedState() returns (state: string) {
      state := *;
    }

    /** Whatever the toolbox answers a call with. */
    method Toolbox(call: Call) returns (outcome: ToolOutcome)
      requires Conduct().stage.Dispatching? && Holds(Conduct().stage.flight, call, Running)
      requires Valid()
      modifies this`log
      ensures Valid()
      ensures Talk() == old(Talk()) && Costs() == old(Costs())
      ensures var stage := old(Conduct()).stage;
              Conduct() == old(Conduct()).(stage := Dispatching(stage.batch, Ran(stage.flight, call, outcome)))
      ensures Post() == old(Post())
    {
      outcome := *;
      Note(Executed(call, outcome));
    }

    /** Send the history to the provider, unless cancellation wins. */
    method Ask() returns (answer: Result<Response, AgentError>)
      requires Traced() && Owes(multiset{}) && Settled(Conduct().stage) && !Costs().cancelled
      requires SeenThrough(Talk(), Scheme())
      requires Valid()
      modifies this`log
      ensures Valid()
      ensures Traced() && Post() == old(Post())
      ensures Talk() == old(Talk()).(asks := old(Talk()).asks + 1, balanced := Talk().balanced, attempt := Untried,
                                     context := if answer.Ok? then answer.value.usage.input else old(Talk()).context)
      ensures answer.Ok? ==> Conduct() == old(Conduct()).(stage := Replied(answer.value))
      ensures answer.Ok? ==> Costs() == old(Costs()).(answer := Some(answer.value.usage))
      ensures answer.Err? ==> answer.error.Cancelled? || answer.error.Provider?
      ensures answer.Err? ==> Conduct() == old(Conduct()).(stage := Asking)
      ensures answer.Err? ==> Costs() == old(Costs()).(answer := None, cancelled := answer.error.Cancelled?)
    {
      NoteRequest();
      var cancelled := SeeCancelled();
      if cancelled {
        return Err(Cancelled);
      }
      var response := ProviderAnswer();
      answer := if response.Some? then Ok(response.value) else Err(Provider);
    }

    ghost method NoteRequest()
      requires Traced() && Owes(multiset{}) && Settled(Conduct().stage) && SeenThrough(Talk(), Scheme())
      requires Valid()
      modifies this`log
      ensures Valid()
      ensures Traced()
      ensures Talk() == old(Talk()).(asks := old(Talk()).asks + 1, balanced := Talk().balanced, attempt := Untried)
      ensures Conduct() == old(Conduct()).(stage := Asking)
      ensures Costs() == old(Costs()).(answer := None) && Post() == old(Post())
    {
      LogAddsUp(log, base, Bounds());
      BalancedIsNothingOwed(history);
      Note(Asked(history));
    }

    /** Append a message to the history; only a nudge leaves the memory alone. */
    method Append(m: Message, ghost nudge: bool)
      requires Traced()
      requires if Talk().turn == [] then m == opening else !m.role.User?
      requires Valid()
      modifies this`history, this`log
      ensures Valid()
      ensures Underway() && history == old(history) + [m]
      ensures Talk() == old(Talk()).(history := history, owed := Receive(old(Talk()).owed, m), turn := Talk().turn)
      ensures Conduct() == Steer(old(Conduct()), Pushed(m, nudge), config.nudgeThreshold, config.stuckThreshold)
      ensures Costs() == old(Costs())
      ensures Post() == if nudge then old(Post()) else old(Post()).(memory := Add(old(Post()).memory, m))
    {
      history := history + [m];
      Note(Pushed(m, nudge));
    }

    // ---- Compaction.

    /** What may be open while compacting: nothing, or calls that follow a safe boundary. */
    ghost predicate MayFold(ids: Ids)
      reads this
    {
      Owes(ids) && (lawful ==> ids == multiset{} || HasSafe(history))
    }

    /** What a compaction came to: given up with nothing changed, or done. */
    ghost predicate FoldedOrNot(before: seq<Message>, tokens: nat, context: nat)
      reads this
    {
      match Talk().attempt
      case Untried => false
      case Abandoned => history == before && lastContextTokens == tokens && Talk().context == context
      case Summarised(_, text) =>
        IsBlank(text) && history == before && lastContextTokens == tokens && Talk().context == context
      case Folded => lastContextTokens == Talk().context && exists cut, summary :: FoldedAt(before, cut, summary)
    }

    /**
      Fold everything before the cut into one boundary message. Without a policy, or with
      nothing to fold, nothing happens; otherwise it happens unless the policy abandons it or
      no usable summary comes back.
     */
    method Compact(manual: bool, ghost ids: Ids) returns (ok: bool)
      requires Traced() && MayFold(ids)
      requires manual || (Scheme().trigger.Some? && Scheme().trigger.value <= Talk().context)
      requires Valid()
      modifies this`history, this`lastContextTokens, this`log
      ensures Valid()
      ensures Traced() && Owes(ids)
      ensures Talk().asks == old(Talk()).asks && Talk().turn == old(Talk()).turn
      ensures Costs() == old(Costs()) && Conduct() == old(Conduct()) && Post() == old(Post())
      ensures |history| <= |old(history)|
      ensures if !hasPolicy || IsCut(old(history), RetainTokens(), 0)
              then && history == old(history) && lastContextTokens == old(lastContextTokens) && Talk() == old(Talk())
                   && (!manual ==> log == old(log))
              else FoldedOrNot(old(history), old(lastContextTokens), old(Talk()).context)
    {
      if !hasPolicy {
        ok := ReportNothing(manual);
        return;
      }
      var cut := ChooseCut(history, RetainTokens());
      if cut == 0 {
        ok := ReportNothing(manual);
        return;
      }
      NotAtZero(history, RetainTokens(), cut);
      ok := Fold(manual, cut, ids);
    }

    method Fold(manual: bool, cut: nat, ghost ids: Ids) returns (ok: bool)
      requires Traced() && MayFold(ids) && Foldable(history, RetainTokens(), cut)
      requires manual || IsDue(history, Talk().context, Scheme())
      requires Valid()
      modifies this`history, this`lastContextTokens, this`log
      ensures Valid()
      ensures Traced() && Owes(ids)
      ensures Talk().asks == old(Talk()).asks && Talk().turn == old(Talk()).turn
      ensures Costs() == old(Costs()) && Conduct() == old(Conduct()) && Post() == old(Post())
      ensures |history| <= |old(history)|
      ensures FoldedOrNot(old(history), old(lastContextTokens), old(Talk()).context)
    {
      var abandoned := PolicyAbandons(manual);
      if abandoned {
        return true;
      }
      var summary := Summarise(manual, cut, ids);
      if summary.None? {
        return false;
      }
      ok := Replace(cut, summary.value, ids);
    }

    /** Put the summary in place of `history[..cut]`, and only then say so. */
    method Replace(cut: nat, summary: string, ghost ids: Ids) returns (ok: bool)
      requires Traced() && MayFold(ids) && Foldable(history, RetainTokens(), cut)
      requires Talk().attempt == Summarised(cut, Some(summary)) && Trim(summary) != ""
      requires Valid()
      modifies this`history, this`lastContextTokens, this`log
      ensures Valid()
      ensures Traced() && Owes(ids)
      ensures Talk().asks == old(Talk()).asks && Talk().turn == old(Talk()).turn
      ensures Costs() == old(Costs()) && Conduct() == old(Conduct()) && Post() == old(Post())
      ensures FoldedAt(old(history), cut, summary) && Talk().attempt.Folded? && lastContextTokens == Talk().context
    {
      var tokensBefore := lastContextTokens;
      var boundary, carriedState := WriteBoundary(summary);
      var retainedFrom := if cut < |history| then Some(history[cut].id) else None;
      Rewrite(cut, summary, boundary, ids);
      ok := EmitPlain(Compacted(summary, carriedState, retainedFrom, tokensBefore, lastContextTokens));
    }

    /** Put the summary, and whatever state the policy carries over, in a message. */
    method WriteBoundary(summary: string) returns (boundary: Message, carriedState: string)
      requires Trim(summary) != ""
      ensures Presents(boundary, |history|, summary)
    {
      carriedState := CarriedState();
      boundary := BoundaryMessage(|history|, summary, carriedState);
    }

    /** The history is `before` with its first `cut` messages folded into a message that presents `summary`. */
    ghost predicate FoldedAt(before: seq<Message>, cut: nat, summary: string)
      reads this
    {
      && Foldable(before, RetainTokens(), cut)
      && history != [] && Presents(history[0], |before|, summary) && history == Rewritten(before, cut, history[0])
      && lastContextTokens == Tokens(history)
    }

    function RetainTokens(): (budget: nat)
      ensures budget <= U32_MAX
    {
      if config.compaction.Some? then config.compaction.value.RetainTokens() else 0
    }

    /** Ask for a summary of `history[..cut]`; `None` when the provider fails or returns no text. */
    method Summarise(manual: bool, cut: nat, ghost ids: Ids) returns (summary: Option<string>)
      requires Traced() && MayFold(ids) && Foldable(history, RetainTokens(), cut)
      requires manual || IsDue(history, Talk().context, Scheme())
      requires Valid()
      modifies this`log
      ensures Valid()
      ensures Traced() && Talk() == old(Talk()).(balanced := Talk().balanced, attempt := Talk().attempt)
      ensures Talk().attempt.Summarised? && Talk().attempt.cut == cut
      ensures summary == if IsBlank(Talk().attempt.text) then None else Talk().attempt.text
      ensures Costs() == old(Costs()) && Conduct() == old(Conduct()) && Post() == old(Post())
    {
      var text: string := *;
      var prompt := Message("compaction-request:" + Decimal(cut), User, [Text(text)]);
      var messages := history[..cut] + [prompt];
      assert messages[..cut] == history[..cut];
      if lawful {
        LogAddsUp(log, base, Bounds());
        FoldingKeepsDebts(history, RetainTokens(), cut, prompt, ids);
      }
      var written := SummariserAnswer(manual, cut, messages);
      summary := if IsBlank(written) then None else written;
    }

    method Rewrite(cut: nat, ghost summary: string, boundary: Message, ghost ids: Ids)
      requires Traced() && MayFold(ids) && Foldable(history, RetainTokens(), cut)
      requires Talk().attempt == Summarised(cut, Some(summary)) && Presents(boundary, |history|, summary)
      requires Valid()
      modifies this`history, this`lastContextTokens, this`log
      ensures Valid()
      ensures Traced() && Owes(ids)
      ensures Talk().asks == old(Talk()).asks && Talk().turn == old(Talk()).turn
      ensures Costs() == old(Costs()) && Conduct() == old(Conduct()) && Post() == old(Post())
      ensures FoldedAt(old(history), cut, summary) && Talk().attempt.Folded? && lastContextTokens == Talk().context
    {
      if lawful {
        LogAddsUp(log, base, Bounds());
        FoldingKeepsDebts(history, RetainTokens(), cut, boundary, ids);
      }
      history := Rewritten(history, cut, boundary);
      Note(Rewrote(cut, boundary));
      lastContextTokens := Tokens(history);
    }

    /** Only a compaction somebody asked for says that it found nothing to do. */
    method ReportNothing(manual: bool) returns (ok: bool)
      requires Valid()
      modifies this`log
      ensures Valid()
      ensures Talk() == old(Talk()) && Conduct() == old(Conduct())
      ensures Costs() == old(Costs()) && Post() == old(Post())
      ensures !manual ==> log == old(log) && ok
    {
      if !manual {
        return true;
      }
      ok := EmitPlain(CompactionSkipped(lastContextTokens));
    }

    /** The one automatic check. A failed compaction is not a failed turn. */
    method MaybeCompact(spent: Accounting)
      requires AtTop(spent)
      requires Valid()
      modifies this`history, this`lastContextTokens, this`log
      ensures Valid()
      ensures Calm(spent) && Settled(Conduct().stage) && Owes(multiset{}) && SeenThrough(Talk(), Scheme())
      ensures Talk().asks == old(Talk()).asks && Conduct() == old(Conduct())
      ensures |history| <= |old(history)|
      ensures if IsDue(old(history), old(lastContextTokens), Scheme())
              then FoldedOrNot(old(history), old(lastContextTokens), old(lastContextTokens))
              else history == old(history) && log == old(log)
    {
      if config.compaction.None? || !hasPolicy || lastContextTokens < config.compaction.value.TriggerTokens() {
        return;
      }
      var _ := Compact(false, multiset{});
    }

    // ---- One completion.

    /** Send the history and bank what the answer cost. */
    method Exchange(spent: Accounting) returns (r: Result<Response, AgentError>, after: Accounting)
      requires Calm(spent) && Settled(Conduct().stage) && Owes(multiset{}) && SeenThrough(Talk(), Scheme())
      requires Talk().asks < config.maxIterations
      requires Valid()
      modifies this`lastContextTokens, this`log
      ensures Valid()
      ensures r.Err? ==> Failed(r.error, after)
      ensures r.Ok? ==> Steady(after) && Owes(multiset{}) && Talk().asks == old(Talk()).asks + 1
      ensures r.Ok? ==> Conduct() == old(Conduct()).(stage := Closed(r.value))
      ensures r.Ok? ==> Costs().paid == old(Costs()).paid + [r.value.usage] && lastContextTokens == r.value.usage.input
      ensures r.Err? ==> Costs().paid == old(Costs()).paid && lastContextTokens == old(lastContextTokens)
    {
      after := spent;
      var started := EmitPlain(MessageStart);
      if !started {
        return Err(EventSink), after;
      }
      var answer := Ask();
      if answer.Err? {
        return Err(answer.error), after;
      }
      var stopped := EmitStop(answer.value);
      if !stopped {
        return Err(EventSink), after;
      }
      after := Bank(spent, answer.value.usage);
      lastContextTokens := answer.value.usage.input;
      r := Ok(answer.value);
    }

    /** Announce the assistant message and, once the sink has it, append it. */
    method Record(message: Message, ghost response: Response, spent: Accounting) returns (ok: bool)
      requires Steady(spent) && Owes(multiset{}) && Conduct().stage == Closed(response)
      requires message.role.Assistant? && message.parts == response.parts
      requires Valid()
      modifies this`history, this`log
      ensures Valid()
      ensures !ok ==> Failed(EventSink, spent) && history == old(history)
      ensures ok ==> Steady(spent) && Owes(IdsOf(ToolCalls(response.parts))) && history == old(history) + [message]
      ensures ok ==> Conduct() == old(Conduct()).(stage := Runs.Recorded(response)) && Pace() == old(Pace())
    {
      ok := Emit(MessageComplete(message));
      if ok {
        Append(message, false);
      }
    }

    // ---- One tool batch.

    /** Slide the fingerprint window and judge the batch that is due by it. */
    method Judge(calls: seq<Call>, recent: seq<string>) returns (after: seq<string>, verdict: Verdict)
      requires Conduct().stage == Due(calls)
      requires recent == Window(Conduct().prints, config.stuckThreshold)
      requires Valid()
      modifies this`log
      ensures Valid()
      ensures Talk() == old(Talk()) && Costs() == old(Costs()) && Post() == old(Post())
      ensures var prints := old(Conduct()).prints + [Fingerprint(calls)];
              && Conduct() == Course(prints, After(verdict, calls), old(Conduct()).exact)
              && verdict == VerdictFor(prints, config.nudgeThreshold, config.stuckThreshold)
              && after == Window(prints, config.stuckThreshold)
    {
      var fingerprint := Fingerprint(calls);
      after, verdict := SlideAndJudge(recent, fingerprint, config, Conduct().prints);
      Note(Judged(fingerprint, verdict));
    }

    /** Answer every call of a repeated batch with a plea, dispatching none of them. */
    method NudgeAll(calls: seq<Call>)
      requires Underway() && Owes(IdsOf(calls)) && Conduct().stage == Nudging(calls)
      requires Valid()
      modifies this`history, this`log
      ensures Valid()
      ensures Underway() && Owes(multiset{}) && Pace() == old(Pace())
      ensures Costs() == old(Costs()) && Post() == old(Post()) && Conduct() == old(Conduct()).(stage := Nudging([]))
      ensures history == old(history) + Nudges(calls)
    {
      LogAddsUp(log, base, Bounds());
      AppendNudges(calls);
      LogAddsUp(log, base, Bounds());
      if lawful { NudgesSettle(old(history), calls); }
    }

    method AppendNudges(calls: seq<Call>)
      requires Underway() && Conduct().stage == Nudging(calls)
      requires Valid()
      modifies this`history, this`log
      ensures Valid()
      ensures Underway() && Pace() == old(Pace()) && history == old(history) + Nudges(calls)
      ensures Costs() == old(Costs()) && Post() == old(Post()) && Conduct() == old(Conduct()).(stage := Nudging([]))
    {
      ghost var nudges := Nudges(calls);
      for i := 0 to |calls|
        invariant Valid() && Underway() && Pace() == old(Pace()) && history == old(history) + nudges[..i]
        invariant Costs() == old(Costs()) && Post() == old(Post())
        invariant Conduct() == old(Conduct()).(stage := Nudging(calls[i..]))
      {
        Append(NudgeMessage(calls[i].id), true);
        assert calls[i..][1..] == calls[i + 1..];
      }
      assert calls[|calls|..] == [];
    }

    /** One call's next move: announce it, execute it, or report what it answered. */
    method Advance(call: Call, state: CallState) returns (next: CallState)
      requires !Finished(state) && IsOwn(call, state)
      requires Conduct().stage.Dispatching? && Holds(Conduct().stage.flight, call, state)
      requires Valid()
      modifies this`log
      ensures Valid()
      ensures MayMove(call, state, next)
      ensures Talk() == old(Talk())
      ensures Costs() == old(Costs()).(refused := old(Costs()).refused || Refused(next))
      ensures var stage := old(Conduct()).stage;
              Conduct() == old(Conduct()).(stage := Dispatching(stage.batch, Moved(stage.flight, call, state, next)))
      ensures Post() == old(Post()).(journal := Joined(old(Post()).journal, RecordedBy(next)))
    {
      JoinedTwice(Post().journal, multiset{}, multiset{});
      match state
      case Waiting =>
        var announced := EmitExecuting(call);
        next := if announced then Running else Unannounced;
      case Running =>
        next := Execute(call);
      case Returned(outcome) =>
        next := Report(call, outcome);
    }

    /** Execute a call that has been announced; what it answered is held until it is reported. */
    method Execute(call: Call) returns (next: CallState)
      requires Conduct().stage.Dispatching? && Holds(Conduct().stage.flight, call, Running)
      requires Valid()
      modifies this`log
      ensures Valid()
      ensures MayMove(call, Running, next) && RecordedBy(next) == multiset{}
      ensures Talk() == old(Talk()) && Costs() == old(Costs()) && Post() == old(Post())
      ensures var stage := old(Conduct()).stage;
              Conduct() == old(Conduct()).(stage := Dispatching(stage.batch, Moved(stage.flight, call, Running, next)))
    {
      var outcome := Toolbox(call);
      next := if outcome.StopRun? then Done(StoppedCall(call)) else Returned(outcome);
    }

    /** Report an execution: its text bounded, its sizes accounted for. */
    method Report(call: Call, outcome: ToolOutcome) returns (next: CallState)
      requires !outcome.StopRun?
      requires Conduct().stage.Dispatching? && Holds(Conduct().stage.flight, call, Returned(outcome))
      requires Valid()
      modifies this`log
      ensures Valid()
      ensures MayMove(call, Returned(outcome), next) && Talk() == old(Talk())
      ensures Costs() == old(Costs()).(refused := old(Costs()).refused || Refused(next))
      ensures var stage := old(Conduct()).stage;
              Conduct() == old(Conduct()).(stage := Dispatching(stage.batch, Filed(stage.flight, call, outcome)))
      ensures Post() == old(Post()).(journal := Joined(old(Post()).journal, RecordedBy(next)))
    {
      var e := WriteReport(call, outcome);
      var ok := EmitReport(e, call, outcome);
      JoinedTwice(old(Post()).journal, multiset{}, multiset{});
      next := if ok then Done(Recorded(e.result)) else Unreported;
    }

    /**
      Execute the calls concurrently. Which call moves next is arbitrary, and announcing,
      executing and reporting are three moves, so this is every interleaving of the batch;
      cancellation may win before any move.
     */
    method ExecuteToolCalls(calls: seq<Call>)
      returns (r: Result<(seq<Message>, seq<Call>), AgentError>, ghost ds: seq<Dispatched>)
      requires Conduct().stage == Dispatching(calls, Grounded(calls))
      requires !Costs().refused && !Costs().cancelled
      requires Valid()
      modifies this`log
      ensures Valid()
      ensures Talk() == old(Talk())
      ensures exists more :: Post() == old(Post()).(journal := Joined(old(Post()).journal, more))
      ensures Conduct() == old(Conduct()).(stage := Conduct().stage) && Conduct().stage.Dispatching?
      ensures Costs() == old(Costs()).(refused := Costs().refused, cancelled := Costs().cancelled)
      ensures Costs().cancelled <==> r == Err(Cancelled)
      ensures r.Err? && !r.error.Cancelled? ==> r.error.EventSink? && Costs().refused
      ensures r.Ok? ==>
                && ProducedInOrder(ds, calls) && r.value == (Results(ds), Stops(ds)) && !Costs().refused
                && Post() == old(Post()).(journal := Joined(old(Post()).journal, multiset(Results(ds))))
                && Conduct().stage == Dispatching(calls, Landed(multiset(Stops(ds))))
    {
      var states, cancelled := Fly(calls);
      if cancelled {
        return Err(Cancelled), [];
      }
      r, ds := Collect(calls, states);
      if r.Ok? {
        AllRecorded(states, ds);
        AllLanded(calls, states, ds);
      }
    }

    /** The batch as the trace shows it is the batch as its calls' states have it. */
    ghost predicate InBatch(calls: seq<Call>, states: seq<CallState>, journal: Groups)
      reads this
    {
      && InFlight(calls, states)
      && Conduct().stage == Dispatching(calls, Aloft(calls, states))
      && Post().journal == Joined(journal, RecordedSoFar(states))
      && Costs().refused == AnyRefused(states)
    }

    /** Let calls move until all are finished or cancellation wins. */
    method Fly(calls: seq<Call>) returns (states: seq<CallState>, cancelled: bool)
      requires Conduct().stage == Dispatching(calls, Grounded(calls))
      requires !Costs().refused && !Costs().cancelled
      requires Valid()
      modifies this`log
      ensures Valid()
      ensures Talk() == old(Talk()) && InBatch(calls, states, old(Post()).journal)
      ensures Conduct() == old(Conduct()).(stage := Conduct().stage) && Post() == old(Post()).(journal := Post().journal)
      ensures Costs() == old(Costs()).(refused := Costs().refused, cancelled := cancelled)
      ensures !cancelled ==> forall i | 0 <= i < |states| :: Finished(states[i])
    {
      states := seq(|calls|, _ => Waiting);
      NothingYet(states);
      AllGrounded(calls, states);
      JoinedTwice(Post().journal, multiset{}, multiset{});
      while exists i | 0 <= i < |states| :: !Finished(states[i])
        invariant Valid() && Talk() == old(Talk()) && InBatch(calls, states, old(Post()).journal)
        invariant Conduct() == old(Conduct()).(stage := Conduct().stage) && Post() == old(Post()).(journal := Post().journal)
        invariant Costs() == old(Costs()).(refused := Costs().refused)
        decreases StepsLeft(states)
      {
        cancelled := SeeCancelled();
        if cancelled {
          return;
        }
        HoldsAll(calls, states);
        ghost var flight, i, before := Conduct().stage.flight, 0, states;
        var next;
        states, i, next := AdvanceSome(calls, states, flight);
        BatchMoves(calls, before, i, next);
        AloftMoves(calls, before, i, next);
        JoinedTwice(old(Post()).journal, RecordedSoFar(before), RecordedBy(next));
      }
      cancelled := false;
    }

    /** Let some unfinished call make its next move. */
    method AdvanceSome(calls: seq<Call>, states: seq<CallState>, ghost flight: Flight)
      returns (after: seq<CallState>, ghost i: nat, next: CallState)
      requires InFlight(calls, states) && exists i | 0 <= i < |states| :: !Finished(states[i])
      requires Conduct().stage == Dispatching(calls, flight)
      requires forall i | 0 <= i < |calls| :: Holds(flight, calls[i], states[i])
      requires Valid()
      modifies this`log
      ensures Valid()
      ensures i < |states| && MayMove(calls[i], states[i], next) && after == states[i := next]
      ensures Talk() == old(Talk()) && Costs() == old(Costs()).(refused := old(Costs()).refused || Refused(next))
      ensures Conduct() == old(Conduct()).(stage := Dispatching(calls, Moved(flight, calls[i], states[i], next)))
      ensures Post() == old(Post()).(journal := Joined(old(Post()).journal, RecordedBy(next)))
    {
      var k :| 0 <= k < |states| && !Finished(states[k]);
      i := k;
      next := Advance(calls[k], states[k]);
      after := states[k := next];
    }

    /** Append a batch's results; afterwards exactly the stopped calls are owed. */
    method AppendResults(messages: seq<Message>, ghost stopped: Ids)
      requires Underway() && Owes(AnsweredBy(messages) + stopped)
      requires forall m | m in messages :: m.role.Tool?
      requires Valid()
      modifies this`history, this`log
      ensures Valid()
      ensures Underway() && Owes(stopped) && Pace() == old(Pace())
      ensures Costs() == old(Costs()) && Conduct() == old(Conduct())
      ensures Post() == old(Post()).(memory := Joined(old(Post()).memory, multiset(messages)))
      ensures history == old(history) + messages
    {
      LogAddsUp(log, base, Bounds());
      AppendAll(messages);
      LogAddsUp(log, base, Bounds());
      if lawful { SettleBatch(old(history), messages, stopped); }
    }

    method AppendResult(m: Message)
      requires Underway() && m.role.Tool?
      requires Valid()
      modifies this`history, this`log
      ensures Valid()
      ensures Underway() && Pace() == old(Pace()) && history == old(history) + [m]
      ensures Costs() == old(Costs()) && Conduct() == old(Conduct())
      ensures Post() == old(Post()).(memory := Add(old(Post()).memory, m))
    {
      Append(m, false);
    }

    method AppendAll(messages: seq<Message>)
      requires Underway() && forall i | 0 <= i < |messages| :: messages[i].role.Tool?
      requires Valid()
      modifies this`history, this`log
      ensures Valid()
      ensures Underway() && Pace() == old(Pace()) && history == old(history) + messages
      ensures Costs() == old(Costs()) && Conduct() == old(Conduct())
      ensures Post() == old(Post()).(memory := Joined(old(Post()).memory, multiset(messages)))
    {
      ghost var memory, before := Post().memory, history;
      JoinedTwice(memory, multiset{}, multiset{});
      for i := 0 to |messages|
        invariant Valid() && Underway() && Pace() == old(Pace())
        invariant history == before + messages[..i]
        invariant Costs() == old(Costs()) && Conduct() == old(Conduct())
        invariant Post() == old(Post()).(memory := Joined(memory, multiset(messages[..i])))
      {
        JoinNext(memory, messages, i);
        AppendResult(messages[i]);
        assert before + messages[..i] + [messages[i]] == before + messages[..i + 1];
      }
      assert messages[..|messages|] == messages;
    }

    // ---- The loop.

    /** Say the run is complete; if the sink will not hear it, the run has failed. */
    method Finish(result: AgentResult, iteration: nat, spent: Accounting) returns (r: Result<Output, AgentError>)
      requires Steady(spent) && iteration == Talk().asks && EndedWith(result)
      requires Valid()
      modifies this`log
      ensures Valid()
      ensures Ended(r, spent) && Conduct() == old(Conduct())
      ensures r.Ok? ==> r.value.result == result
    {
      var ok := Emit(RunComplete(spent.usage, iteration, spent.contextTokens));
      r := if ok then Ok(Output(result, spent.usage)) else Err(EventSink);
    }

    /** Judge the batch that is due, then nudge it or dispatch it; `Some` ends the run. */
    method ToolTurn(calls: seq<Call>, iteration: nat, recent: seq<string>, spent: Accounting)
      returns (done: Option<Result<Output, AgentError>>, after: seq<string>)
      requires calls != [] && iteration == Talk().asks
      requires Steady(spent) && Conduct().stage == Due(calls) && Owes(IdsOf(calls))
      requires recent == Window(Conduct().prints, config.stuckThreshold)
      requires Valid()
      modifies this`history, this`log
      ensures Valid()
      ensures Conduct().prints == old(Conduct()).prints + [Fingerprint(calls)]
      ensures done.Some? ==> Ended(done.value, spent)
      ensures done.None? ==> AtTop(spent) && Talk().asks == iteration
      ensures done.None? ==> after == Window(Conduct().prints, config.stuckThreshold)
    {
      var verdict;
      after, verdict := Judge(calls, recent);
      if verdict.Stuck? {
        return Some(Err(StuckInLoop(calls[0].name, config.stuckThreshold))), after;
      }
      if verdict.Nudge? {
        NudgeAll(calls);
        return None, after;
      }
      var cancelled := SeeCancelled();
      if cancelled {
        return Some(Err(Cancelled)), after;
      }
      done := DispatchBatch(calls, iteration, spent);
    }

    /** Run a batch and act on what it came to. */
    method DispatchBatch(calls: seq<Call>, iteration: nat, spent: Accounting)
      returns (done: Option<Result<Output, AgentError>>)
      requires Steady(spent) && Conduct().stage == Dispatching(calls, Grounded(calls))
      requires iteration == Talk().asks && Owes(IdsOf(calls))
      requires Valid()
      modifies this`history, this`log
      ensures Valid()
      ensures Conduct().prints == old(Conduct()).prints
      ensures done.Some? ==> Ended(done.value, spent)
      ensures done.None? ==> AtTop(spent) && Talk().asks == iteration
    {
      var batch, ds := ExecuteToolCalls(calls);
      if batch.Err? {
        return Some(Err(batch.error));
      }
      var (messages, stopped) := batch.value;
      Land(calls, messages, stopped, ds, spent);
      done := StopOrGoOn(calls, stopped, iteration, spent);
    }

    /** A call that asked for it ends the run. */
    method StopOrGoOn(ghost calls: seq<Call>, stopped: seq<Call>, iteration: nat, spent: Accounting)
      returns (done: Option<Result<Output, AgentError>>)
      requires Steady(spent) && Owes(IdsOf(stopped)) && iteration == Talk().asks
      requires Conduct().stage == Dispatching(calls, Landed(multiset(stopped))) && IsSubsequence(stopped, calls)
      requires Valid()
      modifies this`log
      ensures Valid()
      ensures Conduct() == old(Conduct()) && (done.Some? <==> stopped != [])
      ensures done.Some? ==> Ended(done.value, spent)
      ensures done.None? ==> AtTop(spent) && Talk().asks == iteration
    {
      if stopped == [] {
        return None;
      }
      var r := Finish(Stopped(stopped), iteration, spent);
      done := Some(r);
    }

    /** A batch has landed: append its results, which leaves the stopped calls open. */
    method Land(calls: seq<Call>, messages: seq<Message>, stopped: seq<Call>, ghost ds: seq<Dispatched>, ghost spent: Accounting)
      requires ProducedInOrder(ds, calls) && messages == Results(ds) && stopped == Stops(ds)
      requires Sound(spent) && Underway() && InStep()
      requires Costs().completions == 0 && !Costs().cancelled && !Costs().refused
      requires Post().journal == Joined(Post().memory, multiset(messages)) && Owes(IdsOf(calls))
      requires Valid()
      modifies this`history, this`log
      ensures Valid()
      ensures Steady(spent) && Owes(IdsOf(stopped)) && IsSubsequence(stopped, calls)
      ensures Pace() == old(Pace()) && Conduct() == old(Conduct())
    {
      OutcomesPartition(calls, ds);
      StopsInOrder(calls, ds);
      AppendResults(messages, IdsOf(stopped));
    }

    /** One iteration below the checks that may refuse it; `Some` ends the run. */
    method Iterate(iteration: nat, recent: seq<string>, spent: Accounting)
      returns (done: Option<Result<Output, AgentError>>, nextRecent: seq<string>, after: Accounting)
      requires AtTop(spent) && iteration == Talk().asks + 1 <= config.maxIterations
      requires recent == Window(Conduct().prints, config.stuckThreshold)
      requires Valid()
      modifies this`history, this`lastContextTokens, this`log
      ensures Valid()
      ensures done.Some? ==> Ended(done.value, after)
      ensures done.None? ==> AtTop(after) && Talk().asks == iteration
      ensures done.None? ==> nextRecent == Window(Conduct().prints, config.stuckThreshold)
    {
      MaybeCompact(spent);
      var answer;
      answer, after := Exchange(spent);
      if answer.Err? {
        return Some(Err(answer.error)), recent, after;
      }
      done, nextRecent := Respond(answer.value, iteration, recent, after);
    }

    /** Record the answer and act on it: finish, fail as truncated, or take a tool turn. */
    method Respond(response: Response, iteration: nat, recent: seq<string>, spent: Accounting)
      returns (done: Option<Result<Output, AgentError>>, after: seq<string>)
      requires Steady(spent) && Owes(multiset{}) && Conduct().stage == Closed(response)
      requires iteration == Talk().asks && recent == Window(Conduct().prints, config.stuckThreshold)
      requires Valid()
      modifies this`history, this`log
      ensures Valid()
      ensures done.Some? ==> Ended(done.value, spent)
      ensures done.None? ==> AtTop(spent) && Talk().asks == iteration
      ensures done.None? ==> after == Window(Conduct().prints, config.stuckThreshold)
    {
      after := recent;
      var id: string := *;
      var recorded := Record(Message(id, Assistant, response.parts), response, spent);
      if !recorded {
        return Some(Err(EventSink)), after;
      }
      var calls := ToolCalls(response.parts);
      if calls == [] {
        var r := FinishOrTruncate(response, iteration, spent);
        return Some(r), after;
      }
      done, after := ToolTurn(calls, iteration, recent, spent);
    }

    /** An answer without calls ends the run, unless it was cut short. */
    method FinishOrTruncate(response: Response, iteration: nat, spent: Accounting) returns (r: Result<Output, AgentError>)
      requires Steady(spent) && Conduct().stage == Spoken(response) && Owes(multiset{}) && iteration == Talk().asks
      requires history != [] && history[|history| - 1].role.Assistant? && history[|history| - 1].parts == response.parts
      requires Valid()
      modifies this`log
      ensures Valid()
      ensures Ended(r, spent) && Conduct() == old(Conduct())
      ensures r.Ok? ==> !response.stopReason.MaxTokens? && r.value.result == Completed(TextOf(response.parts))
    {
      if response.stopReason.MaxTokens? {
        return Err(Truncated);
      }
      r := Finish(Completed(TextOf(response.parts)), iteration, spent);
    }

    method RunInner(input: Input) returns (r: Result<Output, AgentError>, spent: Accounting)
      requires log == Begin(history, lastContextTokens) && base == history && opening == ToMessage(input)
      requires lawful ==> Receive(Owed(history), opening) == NOTHING_OWED
      requires Valid()
      modifies this`history, this`lastContextTokens, this`log
      ensures Valid()
      ensures Ended(r, spent)
    {
      var ok := Open(input);
      if !ok {
        return Err(EventSink), NOTHING_SPENT;
      }
      r, spent := Loop();
    }

    /** Announce the input and, once the sink has it, append it. */
    method Open(input: Input) returns (ok: bool)
      requires log == Begin(history, lastContextTokens) && base == history && opening == ToMessage(input)
      requires lawful ==> Receive(Owed(history), opening) == NOTHING_OWED
      requires Valid()
      modifies this`history, this`log
      ensures Valid()
      ensures !ok ==> Failed(EventSink, NOTHING_SPENT)
      ensures ok ==> AtTop(NOTHING_SPENT) && Talk().asks == 0 && Conduct().prints == []
    {
      ok := EmitInput(input);
      if ok {
        Append(ToMessage(input), false);
        assert Conduct() == Course([], Idle, true) && Post().journal == Post().memory;
      }
    }

    method EmitInput(input: Input) returns (ok: bool)
      requires log == Begin(base, lastContextTokens)
      requires Valid()
      modifies this`log
      ensures Valid()
      ensures Talk() == Dialogue(base, Owed(base), [], lastContextTokens, Untried, true, true, 0)
      ensures Conduct() == Course([], Idle, true)
      ensures Costs() == Ledger(None, [], NOTHING_SPENT, 0, 0, false, !ok)
      ensures Post() == Mail(if ok then Add(NO_MESSAGES, ToMessage(input)) else NO_MESSAGES, NO_MESSAGES)
    {
      ok := Emit(InputMessage(input));
    }

    method Loop() returns (r: Result<Output, AgentError>, spent: Accounting)
      requires AtTop(NOTHING_SPENT) && Talk().asks == 0 && Conduct().prints == []
      requires Valid()
      modifies this`history, this`lastContextTokens, this`log
      ensures Valid()
      ensures Ended(r, spent)
    {
      var iteration: nat, recent: seq<string> := 0, [];
      spent := NOTHING_SPENT;
      while true
        invariant Valid() && AtTop(spent) && iteration == Talk().asks <= config.maxIterations
        invariant recent == Window(Conduct().prints, config.stuckThreshold)
        decreases config.maxIterations - iteration
      {
        var cancelled := SeeCancelled();
        if cancelled {
          return Err(Cancelled), spent;
        }
        if iteration >= config.maxIterations {
          return Err(MaxIterationsExceeded(config.maxIterations)), spent;
        }
        iteration := iteration + 1;
        var done;
        done, recent, spent := Iterate(iteration, recent, spent);
        if done.Some? {
          return done.value, spent;
        }
      }
    }

    /**
      How a run has ended once its failure, if any, was reported: faithful to its trace,
      lawful and exact; `Ok` with one accepted `RunComplete`, `Err` with one attempted
      `RunAborted`, either of them last, and carrying what was spent.
     */
    ghost predicate Concluded(r: Result<Output, AgentError>, spent: Accounting)
      reads this
    {
      && Traced() && (lawful ==> Talk().owed.Some?) && spent == Costs().spent && Conduct().exact
      && AtMostLastGroupAhead(Post().journal, Post().memory) && Talk().asks <= config.maxIterations
      && log.trace.Then? && log.trace.last.Emitted?
      && match r
         case Ok(output) =>
           && EndedWith(output.result) && output.usage == spent.usage && Post().journal == Post().memory
           && !Costs().cancelled && !Costs().refused && Costs().completions == 1 && Costs().aborts == 0
           && log.trace.last == Emitted(RunComplete(spent.usage, Talk().asks, spent.contextTokens), true)
         case Err(error) =>
           && Because(error) && Costs().completions == 0 && Costs().aborts == 1
           && log.trace.last.event == RunAborted(spent.usage, spent.contextTokens)
    }

    /** Report what a failed run spent; the sink's own failure changes nothing. */
    method ReportAbort(r: Result<Output, AgentError>, spent: Accounting)
      requires Ended(r, spent)
      requires Valid()
      modifies this`log
      ensures Valid()
      ensures Concluded(r, spent)
    {
      if r.Err? {
        var _ := Emit(RunAborted(spent.usage, spent.contextTokens));
      }
    }

    method RunAndReport(input: Input) returns (r: Result<Output, AgentError>)
      requires log == Begin(history, lastContextTokens) && base == history && opening == ToMessage(input)
      requires lawful ==> Receive(Owed(history), opening) == NOTHING_OWED
      requires Valid()
      modifies this`history, this`lastContextTokens, this`log
      ensures Valid()
      ensures Concluded(r, Costs().spent)
    {
      var spent;
      r, spent := RunInner(input);
      ReportAbort(r, spent);
    }

    /** A new run begins a new log. */
    ghost method OpenLog(m: Message)
      requires config.nudgeThreshold < config.stuckThreshold
      modifies this`log, this`base, this`baseContext, this`opening, this`lawful
      ensures Valid() && log == Begin(history, lastContextTokens) && base == history && opening == m
      ensures baseContext == lastContextTokens
      ensures lawful == Balanced(history + [m]) && (lawful ==> Receive(Owed(history), opening) == NOTHING_OWED)
    {
      log, base, opening, lawful := Begin(history, lastContextTokens), history, m, Balanced(history + [m]);
      baseContext := lastContextTokens;
      assert Bounds().plan.context == lastContextTokens;
      BeginIsTrue(history, Bounds());
      BalancedWith(history, m);
    }

    /**
      What a concluded run leaves: besides `Concluded`, with the totals over the answers paid
      for, what is owed is what the history owes; if it opened with a user's message, every
      request ended with its turn; every batch recorded was judged; and if it succeeded, the
      messages of the accepted events are those it appended, up to their order in a batch.
     */
    ghost predicate Leaves(r: Result<Output, AgentError>)
      reads this
    {
      && Concluded(r, Accounting(Total(Costs().paid), LastPrompt(Costs().paid)))
      && Talk().owed == Owed(history)
      && (Talk().turn != [] ==> Talk().turn[0] == opening)
      && (IsSafeBoundary(opening) ==>
            RequestsEndWithTheTurn(base, Scheme(), log.trace) && EndsWith(history, Talk().turn))
      && Conduct().prints == Prints(Batches(log.trace))
      && (r.Ok? ==> SameStory(Accepted(log.trace), Appended(log.trace)))
    }

    /** What a concluded run's log says of its whole trace. */
    lemma CloseLog(r: Result<Output, AgentError>)
      requires Valid() && Concluded(r, Costs().spent)
      ensures Leaves(r)
    {
      LogAddsUp(log, base, Bounds());
      if IsSafeBoundary(opening) { LogKeepsTheTurn(log, base, Bounds()); }
      LogJudgesEveryBatch(log, base, Bounds());
      if r.Ok? { LogTellsOneStory(log, base, Bounds()); }
    }

    /**
      One run, from its input to its result. Whatever the environment does, and through every
      nudge, batch and compaction:
      - if the history with the input appended is balanced, so is every request of the run,
        and on a stopped exit exactly the stopped calls are unanswered;
      - if the input is a user's, every request ends with the input and all the run has
        appended since, verbatim: no compaction reaches into the turn under way;
      - a compaction that is due at a request has been seen through before it;
      - the totals reported are the sums over the calls whose `MessageStop` was accepted;
      - exactly one accepted `RunComplete` ends a run that returns `Ok`, and exactly one
        attempted `RunAborted` ends one that returns `Err`;
      - every batch the provider asks for is judged by `VerdictFor` and treated as judged;
      - the messages of the accepted events are those the run appended to its history, up to
        their order within a batch, and every tool result is what the toolbox answered, bounded;
      - the error returned is the one the trace accounts for.
     */
    method Run(input: Input) returns (r: Result<Output, AgentError>)
      requires Valid()
      modifies this
      ensures Valid() && base == old(history) && baseContext == old(lastContextTokens) && lawful == Balanced(old(history) + [ToMessage(input)])
      ensures opening == ToMessage(input) && (input.UserInput? ==> IsSafeBoundary(opening))
      ensures Leaves(r)
    {
      var m := ToMessage(input);
      UserInputIsSafe(input);
      OpenLog(m);
      r := RunAndReport(input);
      CloseLog(r);
    }
  }
}
