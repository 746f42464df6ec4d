/** One concurrently dispatched batch of tool calls. */
module ToolBatch {
  import opened Wrappers
  import opened Messages
  import opened Histories
  import opened ToolOutput

  /** A Rust `String`: well-formed UTF-8 of at most `isize::MAX` bytes. */
  type Utf8 = s: string | ValidUtf8(s) && |s| <= MAX_STRING_BYTES witness ""

  /** What the toolbox answered a call with. */
  datatype ToolOutcome =
    | Value(rendered: Utf8, artifacts: seq<ArtifactRef>, originalBytes: nat, spilledBytes: nat)
    | StopRun
    | Failure(error: Utf8)

  /** The text a result carries before the guard bounds it. */
  function Said(o: ToolOutcome): Utf8
    requires !o.StopRun?
  {
    if o.Value? then o.rendered else o.error
  }

  function ArtifactsOf(o: ToolOutcome): seq<ArtifactRef> {
    if o.Value? then o.artifacts else []
  }

  function ReportedBytes(o: ToolOutcome): nat {
    if o.Value? then o.originalBytes else 0
  }

  function SpilledBytes(o: ToolOutcome): nat {
    if o.Value? then o.spilledBytes else 0
  }

  function ResultMessage(call: Call, output: string, o: ToolOutcome): Message {
    Message("result:" + call.id, Tool, [ToolResult(call.id, output, o.Failure?, ArtifactsOf(o))])
  }

  /** A call's outcome once it is finished: a result message, or a stop that leaves the call open. */
  datatype Dispatched = Recorded(message: Message) | StoppedCall(call: Call)

  predicate Produced(d: Dispatched, call: Call) {
    match d
    case Recorded(m) => m.id == "result:" + call.id && Answers(m, call.id)
    case StoppedCall(c) => c == call
  }

  function Results(ds: seq<Dispatched>): seq<Message> {
    if ds == [] then [] else (if ds[0].Recorded? then [ds[0].message] else []) + Results(ds[1..])
  }

  function Stops(ds: seq<Dispatched>): seq<Call> {
    if ds == [] then [] else (if ds[0].StoppedCall? then [ds[0].call] else []) + Stops(ds[1..])
  }

  ghost predicate ProducedInOrder(ds: seq<Dispatched>, calls: seq<Call>) {
    |ds| == |calls| && forall i | 0 <= i < |ds| :: Produced(ds[i], calls[i])
  }

  /** Results and stopped calls partition the requested calls. */
  lemma {:induction false} OutcomesPartition(calls: seq<Call>, ds: seq<Dispatched>)
    requires ProducedInOrder(ds, calls)
    ensures AnsweredBy(Results(ds)) + IdsOf(Stops(ds)) == IdsOf(calls)
    ensures forall m | m in Results(ds) :: m.role.Tool?
    ensures |Results(ds)| + |Stops(ds)| == |calls|
  {
    if ds != [] {
      var call, d := calls[0], ds[0];
      OutcomesPartition(calls[1..], ds[1..]);
      assert Produced(d, call);
      if d.Recorded? {
        AnswersOne(d.message, call.id);
        AnsweredByCons(d.message, Results(ds[1..]));
        assert Results(ds) == [d.message] + Results(ds[1..]) && Stops(ds) == Stops(ds[1..]);
      } else {
        IdsOfCons(call, Stops(ds[1..]));
        assert Results(ds) == Results(ds[1..]) && Stops(ds) == [call] + Stops(ds[1..]);
      }
    }
  }

  lemma AnsweredByCons(m: Message, rest: seq<Message>)
    ensures AnsweredBy([m] + rest) == ResultIds(m.parts) + AnsweredBy(rest)
  {
    assert ([m] + rest)[1..] == rest;
  }

  lemma IdsOfCons(c: Call, rest: seq<Call>)
    ensures IdsOf([c] + rest) == multiset{c.id} + IdsOf(rest)
  {
    assert ([c] + rest)[1..] == rest;
  }

  lemma AnswersOne(m: Message, id: string)
    requires Answers(m, id)
    ensures ResultIds(m.parts) == multiset{id}
  {
    assert m.parts[1..] == [];
  }

  lemma {:induction false} OneAnswerEach(calls: seq<Call>, messages: seq<Message>)
    requires |messages| == |calls| && forall i | 0 <= i < |calls| :: Answers(messages[i], calls[i].id)
    ensures AnsweredBy(messages) == IdsOf(calls)
    ensures forall m | m in messages :: m.role.Tool?
  {
    if calls != [] {
      AnswersOne(messages[0], calls[0].id);
      OneAnswerEach(calls[1..], messages[1..]);
    }
  }

  // ---- Stopped calls, and nudges.

  predicate IsSubsequence(some: seq<Call>, calls: seq<Call>) {
    if some == [] then true
    else if calls == [] then false
    else if some[0] == calls[0] then IsSubsequence(some[1..], calls[1..])
    else IsSubsequence(some, calls[1..])
  }

  /** The stopped calls are calls of the batch, whole and in its order. */
  lemma {:induction false} StopsInOrder(calls: seq<Call>, ds: seq<Dispatched>)
    requires ProducedInOrder(ds, calls)
    ensures IsSubsequence(Stops(ds), calls)
  {
    if ds != [] {
      StopsInOrder(calls[1..], ds[1..]);
      assert Produced(ds[0], calls[0]);
      if ds[0].StoppedCall? {
        assert Stops(ds)[1..] == Stops(ds[1..]);
      } else {
        assert Stops(ds) == Stops(ds[1..]);
        SkipOne(Stops(ds), calls);
      }
    }
  }

  lemma {:induction false} SkipOne(some: seq<Call>, calls: seq<Call>)
    requires calls != [] && IsSubsequence(some, calls[1..])
    ensures IsSubsequence(some, calls)
  {
    if some != [] && some[0] == calls[0] {
      DropFirst(some, calls[1..]);
    }
  }

  lemma {:induction false} DropFirst(some: seq<Call>, calls: seq<Call>)
    requires some != [] && IsSubsequence(some, calls)
    ensures IsSubsequence(some[1..], calls)
  {
    if some[0] == calls[0] {
      SkipOne(some[1..], calls);
    } else {
      DropFirst(some, calls[1..]);
      SkipOne(some[1..], calls);
    }
  }

  const NUDGE := "You have called this tool with identical arguments multiple times. Please try a different approach."

  /** The answer to a repeated call that was not dispatched. */
  function NudgeMessage(id: string): (m: Message)
    ensures Answers(m, id)
  {
    Message("nudge:" + id, Tool, [ToolResult(id, NUDGE, false, [])])
  }

  function Nudges(calls: seq<Call>): seq<Message> {
    seq(|calls|, i requires 0 <= i < |calls| => NudgeMessage(calls[i].id))
  }

  /** Nudges answer exactly the calls they stand in for. */
  lemma NudgesSettle(h: seq<Message>, calls: seq<Call>)
    requires Owed(h) == Some(IdsOf(calls))
    ensures Owed(h + Nudges(calls)) == NOTHING_OWED
  {
    OneAnswerEach(calls, Nudges(calls));
    assert IdsOf(calls) == AnsweredBy(Nudges(calls)) + multiset{};
    SettleBatch(h, Nudges(calls), multiset{});
  }

  // ---- The batch in flight.

  /**
    A call is announced, executed and reported, and anything may happen in between; the sink
    may refuse its announcement or its report.
   */
  datatype CallState =
    | Waiting
    | Running
    | Returned(outcome: ToolOutcome)
    | Done(produced: Dispatched)
    | Unannounced
    | Unreported

  predicate Refused(s: CallState) {
    s.Unannounced? || s.Unreported?
  }

  predicate Finished(s: CallState) {
    s.Done? || Refused(s)
  }

  ghost predicate AnyRefused(states: seq<CallState>) {
    exists i | 0 <= i < |states| :: Refused(states[i])
  }

  /** What a single move may do to a call. */
  predicate MayMove(call: Call, s: CallState, s': CallState) {
    match s
    case Waiting => s'.Running? || s'.Unannounced?
    case Running => (s'.Returned? && !s'.outcome.StopRun?) || s' == Done(StoppedCall(call))
    case Returned(_) => s'.Unreported? || (s'.Done? && s'.produced.Recorded? && Produced(s'.produced, call))
    case _ => false
  }

  /** A state a call may be in: whatever it produced is its own, and an outcome it holds is one to report. */
  predicate IsOwn(call: Call, s: CallState) {
    match s
    case Done(d) => Produced(d, call)
    case Returned(o) => !o.StopRun?
    case _ => true
  }

  ghost predicate InFlight(calls: seq<Call>, states: seq<CallState>) {
    |states| == |calls| && forall i | 0 <= i < |states| :: IsOwn(calls[i], states[i])
  }

  function Steps(s: CallState): nat {
    match s
    case Waiting => 3
    case Running => 2
    case Returned(_) => 1
    case _ => 0
  }

  function StepsLeft(states: seq<CallState>): nat {
    if states == [] then 0 else Steps(states[0]) + StepsLeft(states[1..])
  }

  function RecordedBy(s: CallState): multiset<Message> {
    if s.Done? && s.produced.Recorded? then multiset{s.produced.message} else multiset{}
  }

  function RecordedSoFar(states: seq<CallState>): multiset<Message> {
    if states == [] then multiset{} else RecordedBy(states[0]) + RecordedSoFar(states[1..])
  }

  lemma Regroup<T>(a: multiset<T>, b: multiset<T>, c: multiset<T>)
    ensures a + (b + c) == a + b + c
  {
  }

  lemma {:induction false} AdvanceOne(states: seq<CallState>, i: nat, s: CallState)
    requires i < |states| && Steps(s) < Steps(states[i])
    ensures StepsLeft(states[i := s]) < StepsLeft(states)
    ensures RecordedSoFar(states[i := s]) == RecordedSoFar(states) + RecordedBy(s)
  {
    var after := states[i := s];
    if i == 0 {
      assert after[1..] == states[1..];
      assert RecordedBy(s) + RecordedSoFar(states[1..]) == RecordedSoFar(states[1..]) + RecordedBy(s);
    } else {
      assert after[1..] == states[1..][i - 1 := s];
      AdvanceOne(states[1..], i - 1, s);
      Regroup(RecordedBy(states[0]), RecordedSoFar(states[1..]), RecordedBy(s));
    }
  }

  lemma {:induction false} NothingYet(states: seq<CallState>)
    requires forall i | 0 <= i < |states| :: states[i].Waiting?
    ensures RecordedSoFar(states) == multiset{}
  {
    if states != [] { NothingYet(states[1..]); }
  }

  /** Once every call is done, what was recorded is exactly the result messages. */
  lemma {:induction false} AllRecorded(states: seq<CallState>, ds: seq<Dispatched>)
    requires |ds| == |states| && forall i | 0 <= i < |states| :: states[i] == Done(ds[i])
    ensures RecordedSoFar(states) == multiset(Results(ds))
  {
    if states != [] {
      AllRecorded(states[1..], ds[1..]);
      if ds[0].Recorded? {
        assert Results(ds) == [ds[0].message] + Results(ds[1..]);
      } else {
        assert Results(ds) == Results(ds[1..]);
      }
    }
  }

  // ---- The batch as its calls are seen from outside.

  datatype Execution = Execution(call: Call, outcome: ToolOutcome)

  /**
    The calls not announced yet, and those announced and not executed yet, by id; the calls
    not executed yet; the executions not reported yet; and the calls whose execution
    stopped the run.
   */
  datatype Flight = Flight(waiting: Ids, running: Ids, left: multiset<Call>, held: multiset<Execution>, stopped: multiset<Call>)

  function Landed(stopped: multiset<Call>): Flight {
    Flight(multiset{}, multiset{}, multiset{}, multiset{}, stopped)
  }

  function Grounded(calls: seq<Call>): Flight {
    Flight(IdsOf(calls), multiset{}, multiset(calls), multiset{}, multiset{})
  }

  function Announced(f: Flight, id: string, accepted: bool): Flight {
    f.(waiting := f.waiting - multiset{id}, running := if accepted then f.running + multiset{id} else f.running)
  }

  function Ran(f: Flight, call: Call, outcome: ToolOutcome): Flight {
    var g := f.(running := f.running - multiset{call.id}, left := f.left - multiset{call});
    if outcome.StopRun? then g.(stopped := f.stopped + multiset{call})
    else g.(held := f.held + multiset{Execution(call, outcome)})
  }

  function Filed(f: Flight, call: Call, outcome: ToolOutcome): Flight {
    f.(held := f.held - multiset{Execution(call, outcome)})
  }

  /** What a call's move from `s` to `s'` does to the flight. */
  function Moved(f: Flight, call: Call, s: CallState, s': CallState): Flight {
    match s
    case Waiting => Announced(f, call.id, s'.Running?)
    case Running => Ran(f, call, if s'.Returned? then s'.outcome else StopRun)
    case Returned(o) => Filed(f, call, o)
    case _ => f
  }

  function OneAloft(call: Call, s: CallState): Flight {
    match s
    case Waiting => Flight(multiset{call.id}, multiset{}, multiset{call}, multiset{}, multiset{})
    case Running => Flight(multiset{}, multiset{call.id}, multiset{call}, multiset{}, multiset{})
    case Unannounced => Flight(multiset{}, multiset{}, multiset{call}, multiset{}, multiset{})
    case Returned(o) => Flight(multiset{}, multiset{}, multiset{}, multiset{Execution(call, o)}, multiset{})
    case Done(d) => Landed(if d.StoppedCall? then multiset{call} else multiset{})
    case Unreported => Landed(multiset{})
  }

  function Both(a: Flight, b: Flight): Flight {
    Flight(a.waiting + b.waiting, a.running + b.running, a.left + b.left, a.held + b.held, a.stopped + b.stopped)
  }

  function Aloft(calls: seq<Call>, states: seq<CallState>): Flight
    requires |states| == |calls|
  {
    if calls == [] then Landed(multiset{}) else Both(OneAloft(calls[0], states[0]), Aloft(calls[1..], states[1..]))
  }

  predicate Holds(f: Flight, call: Call, s: CallState) {
    match s
    case Waiting => call.id in f.waiting
    case Running => call.id in f.running && call in f.left
    case Returned(o) => Execution(call, o) in f.held
    case _ => true
  }

  lemma TakeBack<T>(x: T, b: multiset<T>)
    ensures multiset{x} + b - multiset{x} == b
    ensures multiset{} + b == b && multiset{x} + b == b + multiset{x}
  {
  }

  lemma TakeBeside<T>(a: multiset<T>, b: multiset<T>, x: T)
    ensures x in b ==> x in a + b && a + (b - multiset{x}) == a + b - multiset{x}
    ensures a + (b + multiset{x}) == a + b + multiset{x}
  {
  }

  lemma AnnounceOne(call: Call, s': CallState, rest: Flight)
    requires MayMove(call, Waiting, s')
    ensures Both(OneAloft(call, s'), rest) == Moved(Both(OneAloft(call, Waiting), rest), call, Waiting, s')
  {
    TakeBack(call.id, rest.waiting);
    TakeBack(call.id, rest.running);
  }

  lemma RunOne(call: Call, s': CallState, rest: Flight)
    requires MayMove(call, Running, s')
    ensures Both(OneAloft(call, s'), rest) == Moved(Both(OneAloft(call, Running), rest), call, Running, s')
  {
    TakeBack(call.id, rest.running);
    TakeBack(call, rest.left);
    TakeBack(call, rest.stopped);
    TakeBack(Execution(call, if s'.Returned? then s'.outcome else StopRun), rest.held);
  }

  lemma FileOne(call: Call, o: ToolOutcome, s': CallState, rest: Flight)
    requires MayMove(call, Returned(o), s')
    ensures Both(OneAloft(call, s'), rest) == Moved(Both(OneAloft(call, Returned(o)), rest), call, Returned(o), s')
  {
    TakeBack(Execution(call, o), rest.held);
  }

  lemma MoveOne(call: Call, s: CallState, s': CallState, rest: Flight)
    requires MayMove(call, s, s')
    ensures Both(OneAloft(call, s'), rest) == Moved(Both(OneAloft(call, s), rest), call, s, s')
  {
    match s
    case Waiting => AnnounceOne(call, s', rest);
    case Running => RunOne(call, s', rest);
    case Returned(o) => FileOne(call, o, s', rest);
  }

  lemma RunBeside(one: Flight, rest: Flight, call: Call, o: ToolOutcome)
    requires Holds(rest, call, Running)
    ensures Both(one, Ran(rest, call, o)) == Ran(Both(one, rest), call, o)
  {
    TakeBeside(one.running, rest.running, call.id);
    TakeBeside(one.left, rest.left, call);
    TakeBeside(one.held, rest.held, Execution(call, o));
    TakeBeside(one.stopped, rest.stopped, call);
  }

  lemma MoveBeside(one: Flight, rest: Flight, call: Call, s: CallState, s': CallState)
    requires MayMove(call, s, s') && Holds(rest, call, s)
    ensures Both(one, Moved(rest, call, s, s')) == Moved(Both(one, rest), call, s, s')
  {
    match s
    case Waiting =>
      TakeBeside(one.waiting, rest.waiting, call.id);
      TakeBeside(one.running, rest.running, call.id);
    case Running => RunBeside(one, rest, call, if s'.Returned? then s'.outcome else StopRun);
    case Returned(o) => TakeBeside(one.held, rest.held, Execution(call, o));
  }

  lemma HoldsBoth(a: Flight, b: Flight, call: Call, s: CallState)
    requires Holds(a, call, s) || Holds(b, call, s)
    ensures Holds(Both(a, b), call, s)
  {
  }

  lemma {:induction false} HoldsOne(calls: seq<Call>, states: seq<CallState>, i: nat)
    requires |states| == |calls| && i < |calls|
    ensures Holds(Aloft(calls, states), calls[i], states[i])
  {
    var one, rest := OneAloft(calls[0], states[0]), Aloft(calls[1..], states[1..]);
    if i > 0 {
      HoldsOne(calls[1..], states[1..], i - 1);
      assert Holds(rest, calls[i], states[i]);
    }
    HoldsBoth(one, rest, calls[i], states[i]);
  }

  /** One call's move is one move of the whole batch. */
  lemma {:induction false} AloftMoves(calls: seq<Call>, states: seq<CallState>, i: nat, s: CallState)
    requires |states| == |calls| && i < |calls| && MayMove(calls[i], states[i], s)
    ensures Aloft(calls, states[i := s]) == Moved(Aloft(calls, states), calls[i], states[i], s)
  {
    var after := states[i := s];
    if i == 0 {
      assert after[1..] == states[1..];
      MoveOne(calls[0], states[0], s, Aloft(calls[1..], states[1..]));
    } else {
      assert after[1..] == states[1..][i - 1 := s];
      AloftMoves(calls[1..], states[1..], i - 1, s);
      HoldsOne(calls[1..], states[1..], i - 1);
      MoveBeside(OneAloft(calls[0], states[0]), Aloft(calls[1..], states[1..]), calls[i], states[i], s);
    }
  }

  lemma HoldsAll(calls: seq<Call>, states: seq<CallState>)
    requires |states| == |calls|
    ensures forall i | 0 <= i < |calls| :: Holds(Aloft(calls, states), calls[i], states[i])
  {
    forall i | 0 <= i < |calls| ensures Holds(Aloft(calls, states), calls[i], states[i]) {
      HoldsOne(calls, states, i);
    }
  }

  lemma MoveFacts(call: Call, s: CallState, s': CallState)
    requires MayMove(call, s, s')
    ensures Steps(s') < Steps(s) && !Refused(s) && IsOwn(call, s')
  {
  }

  lemma StaysInFlight(calls: seq<Call>, states: seq<CallState>, i: nat, s: CallState)
    requires InFlight(calls, states) && i < |calls| && IsOwn(calls[i], s)
    ensures InFlight(calls, states[i := s])
  {
  }

  /** What one call's move does to the batch, besides moving its flight: it comes closer to its end, and keeps its books. */
  lemma BatchMoves(calls: seq<Call>, states: seq<CallState>, i: nat, s: CallState)
    requires InFlight(calls, states) && i < |calls| && MayMove(calls[i], states[i], s)
    ensures InFlight(calls, states[i := s]) && StepsLeft(states[i := s]) < StepsLeft(states)
    ensures RecordedSoFar(states[i := s]) == RecordedSoFar(states) + RecordedBy(s)
    ensures AnyRefused(states[i := s]) <==> AnyRefused(states) || Refused(s)
  {
    MoveFacts(calls[i], states[i], s);
    AdvanceOne(states, i, s);
    RefusedAfter(states, i, s);
    StaysInFlight(calls, states, i, s);
  }

  lemma RefusedAfter(states: seq<CallState>, i: nat, s: CallState)
    requires i < |states| && !Refused(states[i])
    ensures AnyRefused(states[i := s]) <==> AnyRefused(states) || Refused(s)
  {
    var after := states[i := s];
    if AnyRefused(states) {
      var k :| 0 <= k < |states| && Refused(states[k]);
      assert Refused(after[k]);
    }
    if Refused(s) {
      assert Refused(after[i]);
    }
  }

  lemma FirstAndRest(calls: seq<Call>)
    requires calls != []
    ensures multiset(calls) == multiset{calls[0]} + multiset(calls[1..])
  {
    assert calls == [calls[0]] + calls[1..];
  }

  lemma {:induction false} AllGrounded(calls: seq<Call>, states: seq<CallState>)
    requires |states| == |calls| && forall i | 0 <= i < |states| :: states[i].Waiting?
    ensures Aloft(calls, states) == Grounded(calls)
  {
    if calls != [] {
      AllGrounded(calls[1..], states[1..]);
      FirstAndRest(calls);
      TakeBack(calls[0].id, multiset{});
      TakeBack(calls[0], multiset{});
    } else {
      assert multiset(calls) == multiset{};
    }
  }

  lemma {:induction false} AllLanded(calls: seq<Call>, states: seq<CallState>, ds: seq<Dispatched>)
    requires ProducedInOrder(ds, calls)
    requires |states| == |ds| && forall i | 0 <= i < |states| :: states[i] == Done(ds[i])
    ensures Aloft(calls, states) == Landed(multiset(Stops(ds)))
  {
    if calls != [] {
      AllLanded(calls[1..], states[1..], ds[1..]);
      assert Produced(ds[0], calls[0]);
      if ds[0].StoppedCall? {
        assert Stops(ds) == [calls[0]] + Stops(ds[1..]);
        assert multiset(Stops(ds)) == multiset{calls[0]} + multiset(Stops(ds[1..]));
      } else {
        assert Stops(ds) == Stops(ds[1..]);
      }
    }
  }

  lemma {:induction false} ResultsAppend(ds: seq<Dispatched>, d: Dispatched)
    ensures Results(ds + [d]) == Results(ds) + (if d.Recorded? then [d.message] else [])
    ensures Stops(ds + [d]) == Stops(ds) + (if d.StoppedCall? then [d.call] else [])
  {
    if ds != [] {
      assert (ds + [d])[1..] == ds[1..] + [d];
      ResultsAppend(ds[1..], d);
    }
  }
}
