/**
  Requests multiplexed over one runtime link, as a transition system: any number of
  relays interleave with the reader that answers them and, when the link drops,
  drains whoever is left.

  A relay is one call with its own one-shot channel. Inserting under an id that is
  already in the table drops the sender that was there, as `HashMap::insert` does.
 */
module SocketTransport {
  import opened Wrappers

  type CallId = string
  type RelayId = nat

  datatype Reply = Reply(callId: Option<CallId>, body: string)

  datatype Failure = Disconnected | SendFailed

  datatype Outcome = Replied(reply: Reply) | Failed(failure: Failure)

  /** A relay's channel: empty while its sender lives, then filled or dropped. */
  datatype Slot = Empty | Filled(outcome: Outcome) | Dropped

  datatype Phase = Writing | WriteFailed | Awaiting | Resolved(outcome: Outcome) | Abandoned

  /** `early` records that the relay registered before the reader drained. */
  datatype Relay = Relay(callId: CallId, phase: Phase, slot: Slot, early: bool)

  datatype Reader = Reading | Holding(relay: RelayId, reply: Reply) | Drained | Closed

  datatype State = State(relays: map<RelayId, Relay>, pending: map<CallId, RelayId>, reader: Reader)

  const INIT := State(map[], map[], Reading)

  datatype Label =
    | Register(r: RelayId, callId: CallId)
    | WriteOk(r: RelayId)
    | WriteErr(r: RelayId)
    | Withdraw(r: RelayId)
    | Receive(reply: Reply)
    | Send
    | Drain
    | SignalClosed
    | Wake(r: RelayId)
    | Abandon(r: RelayId)

  predicate In(s: State, r: RelayId, phase: Phase) {
    r in s.relays && s.relays[r].phase == phase
  }

  predicate Live(s: State, r: RelayId) {
    r in s.relays && (s.relays[r].phase.Writing? || s.relays[r].phase.WriteFailed? || s.relays[r].phase.Awaiting?)
  }

  function SetPhase(s: State, r: RelayId, phase: Phase): State
    requires r in s.relays
  {
    s.(relays := s.relays[r := s.relays[r].(phase := phase)])
  }

  /** Dropping a sender, or sending on it, ends an empty channel; it changes no other. */
  function End(relay: Relay, slot: Slot): Relay {
    if relay.slot.Empty? then relay.(slot := slot) else relay
  }

  /** The table without `callId`, its sender dropped. */
  function DropSender(s: State, callId: CallId): State {
    if callId in s.pending && s.pending[callId] in s.relays then
      var r := s.pending[callId];
      State(s.relays[r := End(s.relays[r], Dropped)], s.pending - {callId}, s.reader)
    else s.(pending := s.pending - {callId})
  }

  function DrainAll(s: State): State {
    State(map r | r in s.relays ::
            if s.relays[r].callId in s.pending && s.pending[s.relays[r].callId] == r
            then End(s.relays[r], Filled(Failed(Disconnected))) else s.relays[r],
          map[], Drained)
  }

  /** One step. A label that is not enabled leaves the state as it was. */
  function Step(s: State, l: Label): State {
    match l
    case Register(r, callId) =>
      if r in s.relays then s
      else
        var dropped := DropSender(s, callId);
        State(dropped.relays[r := Relay(callId, Writing, Empty, !(s.reader.Drained? || s.reader.Closed?))],
              dropped.pending[callId := r], s.reader)
    case WriteOk(r) => if In(s, r, Writing) then SetPhase(s, r, Awaiting) else s
    case WriteErr(r) => if In(s, r, Writing) then SetPhase(s, r, WriteFailed) else s
    case Withdraw(r) =>
      if In(s, r, WriteFailed) then SetPhase(DropSender(s, s.relays[r].callId), r, Resolved(Failed(SendFailed))) else s
    case Receive(reply) =>
      if s.reader.Reading? && reply.callId.Some? && reply.callId.value in s.pending
      then State(s.relays, s.pending - {reply.callId.value}, Holding(s.pending[reply.callId.value], reply))
      else s
    case Send =>
      if s.reader.Holding? && s.reader.relay in s.relays then
        var r := s.reader.relay;
        State(s.relays[r := End(s.relays[r], Filled(Replied(s.reader.reply)))], s.pending, Reading)
      else s
    case Drain => if s.reader.Reading? then DrainAll(s) else s
    case SignalClosed => if s.reader.Drained? then s.(reader := Closed) else s
    case Wake(r) =>
      if In(s, r, Awaiting) && !s.relays[r].slot.Empty? then
        SetPhase(s, r, Resolved(if s.relays[r].slot.Filled? then s.relays[r].slot.outcome else Failed(Disconnected)))
      else s
    case Abandon(r) => if Live(s, r) then SetPhase(s, r, Abandoned) else s
  }

  function RunFrom(s: State, labels: seq<Label>): State {
    if labels == [] then s else Step(RunFrom(s, labels[..|labels| - 1]), labels[|labels| - 1])
  }

  // ---- What every run keeps.

  /** The sender of an empty channel is in the table under its own id, or in the reader's hand. */
  predicate HasSender(s: State, r: RelayId)
    requires r in s.relays
  {
    || (s.relays[r].callId in s.pending && s.pending[s.relays[r].callId] == r)
    || (s.reader.Holding? && s.reader.relay == r)
  }

  /** A reply that reached a channel, or a caller, carries that relay's own call id. */
  predicate OwnReply(relay: Relay) {
    && (relay.slot.Filled? && relay.slot.outcome.Replied? ==> relay.slot.outcome.reply.callId == Some(relay.callId))
    && (relay.phase.Resolved? && relay.phase.outcome.Replied? ==> relay.phase.outcome.reply.callId == Some(relay.callId))
  }

  ghost predicate TableIsSound(s: State) {
    && (forall id | id in s.pending :: s.pending[id] in s.relays && s.relays[s.pending[id]].callId == id)
    && (s.reader.Holding? ==>
          && s.reader.relay in s.relays && s.reader.reply.callId == Some(s.relays[s.reader.relay].callId)
          && forall id | id in s.pending :: s.pending[id] != s.reader.relay)
  }

  ghost predicate ChannelsAreSound(s: State) {
    forall r | r in s.relays ::
      && (s.relays[r].slot.Empty? <==> HasSender(s, r))
      && OwnReply(s.relays[r])
      && (s.relays[r].early && (s.reader.Drained? || s.reader.Closed?) ==> !s.relays[r].slot.Empty?)
      && (!(s.reader.Drained? || s.reader.Closed?) ==> s.relays[r].early)
      && (s.relays[r].slot.Filled? ==> s.relays[r].early)
  }

  ghost predicate Inv(s: State) {
    TableIsSound(s) && ChannelsAreSound(s)
  }

  lemma DropKeepsInv(s: State, callId: CallId)
    requires Inv(s)
    ensures Inv(DropSender(s, callId))
  {
  }

  lemma RegisterKeepsInv(s: State, r: RelayId, callId: CallId)
    requires Inv(s)
    ensures Inv(Step(s, Register(r, callId)))
  {
    DropKeepsInv(s, callId);
  }

  lemma ReaderKeepsInv(s: State, l: Label)
    requires Inv(s) && (l.Receive? || l.Send? || l.Drain? || l.SignalClosed?)
    ensures Inv(Step(s, l))
  {
  }

  lemma RelayKeepsInv(s: State, r: RelayId, phase: Phase)
    requires Inv(s) && r in s.relays && OwnReply(s.relays[r].(phase := phase))
    ensures Inv(SetPhase(s, r, phase))
  {
  }

  lemma OneStep(s: State, l: Label)
    requires Inv(s)
    ensures Inv(Step(s, l))
  {
    match l
    case Register(r, callId) => RegisterKeepsInv(s, r, callId);
    case WriteOk(r) => if Step(s, l) != s { RelayKeepsInv(s, r, Awaiting); }
    case WriteErr(r) => if Step(s, l) != s { RelayKeepsInv(s, r, WriteFailed); }
    case Withdraw(r) =>
      if In(s, r, WriteFailed) {
        DropKeepsInv(s, s.relays[r].callId);
        RelayKeepsInv(DropSender(s, s.relays[r].callId), r, Resolved(Failed(SendFailed)));
      }
    case Wake(r) =>
      if In(s, r, Awaiting) && !s.relays[r].slot.Empty? {
        RelayKeepsInv(s, r, Step(s, l).relays[r].phase);
      }
    case Abandon(r) => if Live(s, r) { RelayKeepsInv(s, r, Abandoned); }
    case _ => ReaderKeepsInv(s, l);
  }

  lemma {:induction false} EveryRun(labels: seq<Label>)
    ensures Inv(RunFrom(INIT, labels))
  {
    if labels != [] {
      EveryRun(labels[..|labels| - 1]);
      OneStep(RunFrom(INIT, labels[..|labels| - 1]), labels[|labels| - 1]);
    }
  }

  // ---- What that means for a caller.

  lemma DropKeepsPhases(s: State, callId: CallId)
    ensures var t := DropSender(s, callId);
            t.relays.Keys == s.relays.Keys && forall q | q in s.relays :: t.relays[q].phase == s.relays[q].phase
  {
  }

  lemma ResolvedStays(s: State, l: Label, r: RelayId)
    requires r in s.relays && s.relays[r].phase.Resolved?
    ensures r in Step(s, l).relays && Step(s, l).relays[r].phase == s.relays[r].phase
  {
    match l
    case Register(_, callId) => DropKeepsPhases(s, callId);
    case Withdraw(q) => if In(s, q, WriteFailed) { DropKeepsPhases(s, s.relays[q].callId); }
    case _ =>
  }

  /** A relay resolves at most once: a resolved relay stays as it is, whatever happens next. */
  lemma {:induction false} ResolvedForGood(s: State, labels: seq<Label>, r: RelayId)
    requires r in s.relays && s.relays[r].phase.Resolved?
    ensures r in RunFrom(s, labels).relays && RunFrom(s, labels).relays[r].phase == s.relays[r].phase
  {
    if labels != [] {
      ResolvedForGood(s, labels[..|labels| - 1], r);
      ResolvedStays(RunFrom(s, labels[..|labels| - 1]), labels[|labels| - 1], r);
    }
  }

  // ---- Replies are delivered.

  /** While the reader reads, an unanswered relay is in the table under its own id. */
  lemma UnansweredIsInTable(s: State, r: RelayId)
    requires Inv(s) && s.reader.Reading? && r in s.relays && s.relays[r].slot.Empty?
    ensures s.relays[r].callId in s.pending && s.pending[s.relays[r].callId] == r
  {
    assert HasSender(s, r);
  }

  /**
    A reply with the id of an unanswered relay reaches that relay, whole, and nobody else; if
    the relay has written its request, it wakes with that reply.
   */
  lemma ReplyIsDelivered(s: State, r: RelayId, reply: Reply)
    requires Inv(s) && s.reader.Reading? && r in s.relays && s.relays[r].slot.Empty?
    requires reply.callId == Some(s.relays[r].callId)
    ensures var t := Step(Step(s, Receive(reply)), Send);
            && t.relays == s.relays[r := s.relays[r].(slot := Filled(Replied(reply)))]
            && t.pending == s.pending - {s.relays[r].callId} && t.reader.Reading?
            && (In(s, r, Awaiting) ==> In(Step(t, Wake(r)), r, Resolved(Replied(reply))))
  {
    UnansweredIsInTable(s, r);
  }

  /** A reply that answers nobody in the table is passed over. */
  lemma UnmatchedReplyIsPassedOver(s: State, reply: Reply)
    requires s.reader.Reading? && (reply.callId.None? || reply.callId.value !in s.pending)
    ensures Step(s, Receive(reply)) == s
  {
  }

  /** A relay whose write failed tells its caller so, whatever its channel holds. */
  lemma FailedWriteIsReported(s: State, r: RelayId)
    requires In(s, r, Writing)
    ensures In(Step(Step(s, WriteErr(r)), Withdraw(r)), r, Resolved(Failed(SendFailed)))
  {
    DropKeepsPhases(Step(s, WriteErr(r)), s.relays[r].callId);
  }

  /** A caller that gives up takes its own relay out of the game and nothing else. */
  lemma AbandoningIsPrivate(s: State, r: RelayId)
    requires Live(s, r)
    ensures var t := Step(s, Abandon(r));
            && In(t, r, Abandoned) && t.relays[r].slot == s.relays[r].slot
            && t.pending == s.pending && t.reader == s.reader && t.relays - {r} == s.relays - {r}
  {
  }

  /** The reader has matched `reply` with relay `r`: it holds it still, or has delivered it. */
  predicate IsMatched(s: State, r: RelayId, reply: Reply) {
    && r in s.relays
    && ((s.relays[r].slot.Empty? && s.reader == Holding(r, reply)) || s.relays[r].slot == Filled(Replied(reply)))
    && (s.relays[r].phase.Resolved? ==> s.relays[r].phase.outcome in {Replied(reply), Failed(SendFailed)})
  }

  lemma MatchedStays(s: State, l: Label, r: RelayId, reply: Reply)
    requires Inv(s) && IsMatched(s, r, reply)
    ensures IsMatched(Step(s, l), r, reply)
    ensures In(s, r, Awaiting) ==>
              In(Step(s, l), r, Awaiting) || In(Step(s, l), r, Abandoned) || In(Step(s, l), r, Resolved(Replied(reply)))
  {
    match l
    case Register(_, callId) => DropSparesTheMatched(s, callId, r, reply);
    case Withdraw(q) => if In(s, q, WriteFailed) { DropSparesTheMatched(s, s.relays[q].callId, r, reply); }
    case _ =>
  }

  lemma DropSparesTheMatched(s: State, callId: CallId, r: RelayId, reply: Reply)
    requires Inv(s) && IsMatched(s, r, reply)
    ensures var t := DropSender(s, callId);
            r in t.relays && t.relays[r] == s.relays[r] && t.reader == s.reader
  {
  }

  /** Once and for all: a relay that had written its request when its reply was received resolves with that reply or not at all. */
  predicate OnlyWith(s: State, r: RelayId, reply: Reply) {
    In(s, r, Awaiting) || In(s, r, Abandoned) || In(s, r, Resolved(Replied(reply)))
  }

  /**
    From the moment a relay's reply is received nothing takes it away, neither the drain nor
    any other relay: the relay can resolve only with that reply, or with the failure of its
    own write if it had not written yet.
   */
  lemma {:induction false} MatchedForGood(s: State, labels: seq<Label>, r: RelayId, reply: Reply)
    requires Inv(s) && IsMatched(s, r, reply)
    ensures IsMatched(RunFrom(s, labels), r, reply)
    ensures OnlyWith(s, r, reply) ==> OnlyWith(RunFrom(s, labels), r, reply)
  {
    if labels != [] {
      var before, last := labels[..|labels| - 1], labels[|labels| - 1];
      MatchedForGood(s, before, r, reply);
      InvRuns(s, before);
      MatchedStays(RunFrom(s, before), last, r, reply);
      if In(RunFrom(s, before), r, Resolved(Replied(reply))) {
        ResolvedStays(RunFrom(s, before), last, r);
      } else if In(RunFrom(s, before), r, Abandoned) {
        AbandonedStays(RunFrom(s, before), last, r);
      }
    }
  }

  lemma AbandonedStays(s: State, l: Label, r: RelayId)
    requires In(s, r, Abandoned)
    ensures In(Step(s, l), r, Abandoned)
  {
    match l
    case Register(_, callId) => DropKeepsPhases(s, callId);
    case Withdraw(q) => if In(s, q, WriteFailed) { DropKeepsPhases(s, s.relays[q].callId); }
    case _ =>
  }

  /** Over runs: an unanswered relay whose reply arrives before the drain resolves, if at all, with that reply. */
  lemma ReceivedReplyDecides(before: seq<Label>, after: seq<Label>, r: RelayId, reply: Reply)
    requires var s := RunFrom(INIT, before);
             && s.reader.Reading? && r in s.relays && s.relays[r].slot.Empty?
             && reply.callId == Some(s.relays[r].callId)
    ensures var s, t := RunFrom(INIT, before), RunFrom(Step(RunFrom(INIT, before), Receive(reply)), after);
            && r in t.relays
            && (Live(s, r) && t.relays[r].phase.Resolved? ==> t.relays[r].phase.outcome in {Replied(reply), Failed(SendFailed)})
            && (In(s, r, Awaiting) && t.relays[r].phase.Resolved? ==> t.relays[r].phase.outcome == Replied(reply))
  {
    EveryRun(before);
    var s := RunFrom(INIT, before);
    UnansweredIsInTable(s, r);
    OneStep(s, Receive(reply));
    var held := Step(s, Receive(reply));
    if Live(s, r) {
      MatchedForGood(held, after, r, reply);
    } else {
      Persists(held, after, r);
    }
  }

  lemma {:induction false} Persists(s: State, labels: seq<Label>, r: RelayId)
    requires r in s.relays
    ensures r in RunFrom(s, labels).relays
  {
    if labels != [] {
      Persists(s, labels[..|labels| - 1], r);
      var t, l := RunFrom(s, labels[..|labels| - 1]), labels[|labels| - 1];
      match l
      case Register(_, callId) => DropKeepsPhases(t, callId);
      case Withdraw(q) => if In(t, q, WriteFailed) { DropKeepsPhases(t, t.relays[q].callId); }
      case _ =>
    }
  }

  /** A reply that a relay returns carries the id the relay was called with. */
  lemma RepliesAreCorrelated(labels: seq<Label>, r: RelayId)
    requires var s := RunFrom(INIT, labels);
             r in s.relays && s.relays[r].phase.Resolved? && s.relays[r].phase.outcome.Replied?
    ensures var s := RunFrom(INIT, labels);
            s.relays[r].phase.outcome.reply.callId == Some(s.relays[r].callId)
  {
    EveryRun(labels);
  }

  /** A live relay whose channel nobody has ended yet. */
  predicate Answerless(s: State, r: RelayId) {
    Live(s, r) && s.relays[r].slot.Empty?
  }

  /** Once `closed` fires, no relay that registered before the drain is left without an answer. */
  lemma ClosedLeavesNoEarlyRelayHanging(labels: seq<Label>, r: RelayId)
    requires var s := RunFrom(INIT, labels);
             s.reader.Closed? && r in s.relays && s.relays[r].early && Live(s, r)
    ensures var s := RunFrom(INIT, labels);
            && !Answerless(s, r)
            && (s.relays[r].phase.Awaiting? ==> Step(s, Wake(r)).relays[r].phase.Resolved?)
            && (s.relays[r].phase.WriteFailed? ==> Step(s, Withdraw(r)).relays[r].phase.Resolved?)
  {
    EveryRun(labels);
  }

  /** A relay that registers after the drain may wait for ever: no step of the reader will ever touch its channel. */
  lemma LateRelayHangs(callId: CallId)
    ensures var s := RunFrom(INIT, [Drain, SignalClosed, Register(0, callId), WriteOk(0)]);
            && s.reader.Closed? && In(s, 0, Awaiting) && Answerless(s, 0)
            && forall l: Label | l.Receive? || l.Send? || l.Drain? || l.SignalClosed? || l.Wake? :: Step(s, l) == s
  {
    var labels := [Drain, SignalClosed, Register(0, callId), WriteOk(0)];
    var one, two, three := [Drain], [Drain, SignalClosed], [Drain, SignalClosed, Register(0, callId)];
    assert labels[..3] == three;
    assert three[..2] == two;
    assert two[..1] == one;
    assert one[..0] == [];
    assert RunFrom(INIT, one) == State(map[], map[], Drained);
    assert RunFrom(INIT, two) == State(map[], map[], Closed);
    assert RunFrom(INIT, three) == State(map[0 := Relay(callId, Writing, Empty, false)], map[callId := 0], Closed);
  }

  // ---- When relays get in each other's way.

  /**
    The live relay, if any, whose sender the step drops: the one an id is registered away from,
    or the one whose entry another relay of the same id withdraws after its write failed.
   */
  function Victim(s: State, l: Label): Option<RelayId> {
    match l
    case Register(r, callId) =>
      if r !in s.relays && callId in s.pending && Live(s, s.pending[callId]) then Some(s.pending[callId]) else None
    case Withdraw(r) =>
      if !In(s, r, WriteFailed) then None
      else
        var id := s.relays[r].callId;
        if id in s.pending && s.pending[id] != r && Live(s, s.pending[id]) then Some(s.pending[id]) else None
    case _ => None
  }

  ghost predicate Intact(s: State) {
    forall r | Live(s, r) :: !s.relays[r].slot.Dropped?
  }

  /** Dropping an id's sender touches no live relay that uses another id. */
  lemma DropTouchesOneId(s: State, callId: CallId)
    requires Inv(s)
    ensures var t := DropSender(s, callId);
            && t.relays.Keys == s.relays.Keys && t.reader == s.reader
            && forall q | q in s.relays ::
                 && t.relays[q] == s.relays[q].(slot := t.relays[q].slot)
                 && (t.relays[q].slot == s.relays[q].slot || (t.relays[q].slot.Dropped? && s.relays[q].callId == callId))
  {
  }

  /** The reader only ever fills channels, and says `Disconnected` only by draining. */
  lemma ReaderOnlyFills(s: State, l: Label)
    requires Inv(s) && (l.Receive? || l.Send? || l.Drain? || l.SignalClosed?)
    ensures var t := Step(s, l);
            && t.relays.Keys == s.relays.Keys
            && forall q | q in s.relays ::
                 && t.relays[q] == s.relays[q].(slot := t.relays[q].slot)
                 && (t.relays[q].slot == s.relays[q].slot || t.relays[q].slot.Filled?)
                 && (t.relays[q].slot == s.relays[q].slot || t.reader.Drained? || t.relays[q].slot.outcome.Replied?)
  {
    match l
    case Receive(_) =>
    case Send =>
    case Drain =>
    case SignalClosed =>
  }

  /** Dropping an id's sender drops the channel whose sender is in the table under that id, and no other. */
  lemma DropHits(s: State, callId: CallId, r: RelayId)
    requires Inv(s) && r in s.relays && !s.relays[r].slot.Dropped?
    ensures var t := DropSender(s, callId);
            && r in t.relays && t.relays[r].phase == s.relays[r].phase
            && (t.relays[r].slot.Dropped? <==> callId in s.pending && s.pending[callId] == r)
  {
  }

  /** A step drops the channel of a live relay exactly when the relay is the step's victim. */
  lemma DropsExactlyTheVictim(s: State, l: Label, r: RelayId)
    requires Inv(s) && Live(s, r) && !s.relays[r].slot.Dropped?
    ensures r in Step(s, l).relays
    ensures Live(Step(s, l), r) && Step(s, l).relays[r].slot.Dropped? <==> Victim(s, l) == Some(r)
  {
    match l
    case Register(_, callId) => DropHits(s, callId, r);
    case Withdraw(q) => if In(s, q, WriteFailed) { DropHits(s, s.relays[q].callId, r); }
    case WriteOk(_) =>
    case WriteErr(_) =>
    case Wake(_) =>
    case Abandon(_) =>
    case _ => ReaderOnlyFills(s, l);
  }

  /** Only a registration brings a relay to life, with an empty channel; every other live relay was live with its id. */
  lemma LiveBefore(s: State, l: Label, r: RelayId)
    requires Inv(s) && Live(Step(s, l), r)
    ensures if r in s.relays then Live(s, r) && Step(s, l).relays[r].callId == s.relays[r].callId
            else l.Register? && l.r == r && Step(s, l).relays[r].slot.Empty? && Step(s, l).relays[r].callId == l.callId
    ensures r in s.relays && s.relays[r].slot.Dropped? ==> Step(s, l).relays[r].slot.Dropped?
  {
    match l
    case Register(_, callId) => DropTouchesOneId(s, callId);
    case Withdraw(q) => if In(s, q, WriteFailed) { DropTouchesOneId(s, s.relays[q].callId); }
    case WriteOk(_) =>
    case WriteErr(_) =>
    case Wake(_) =>
    case Abandon(_) =>
    case _ => ReaderOnlyFills(s, l);
  }

  /** So channels stay intact over a step exactly when it has no victim. */
  lemma IntactExactlyWithoutVictim(s: State, l: Label)
    requires Inv(s) && Intact(s)
    ensures Intact(Step(s, l)) <==> Victim(s, l).None?
  {
    if Victim(s, l).Some? {
      DropsExactlyTheVictim(s, l, Victim(s, l).value);
    } else {
      forall r | Live(Step(s, l), r) ensures !Step(s, l).relays[r].slot.Dropped? {
        LiveBefore(s, l, r);
        if r in s.relays { DropsExactlyTheVictim(s, l, r); }
      }
    }
  }

  ghost predicate AlwaysIntact(labels: seq<Label>) {
    forall n | 0 <= n <= |labels| :: Intact(RunFrom(INIT, labels[..n]))
  }

  ghost predicate NoVictims(labels: seq<Label>) {
    forall i | 0 <= i < |labels| :: Victim(RunFrom(INIT, labels[..i]), labels[i]).None?
  }

  lemma UnfoldRun(before: seq<Label>, l: Label)
    ensures RunFrom(INIT, before + [l]) == Step(RunFrom(INIT, before), l)
    ensures NoVictims(before + [l]) <==> NoVictims(before) && Victim(RunFrom(INIT, before), l).None?
    ensures AlwaysIntact(before + [l]) <==> AlwaysIntact(before) && Intact(RunFrom(INIT, before + [l]))
    ensures AlwaysIntact(before) ==> Intact(RunFrom(INIT, before))
  {
    var labels := before + [l];
    assert forall i | 0 <= i <= |before| :: labels[..i] == before[..i];
    assert labels[..|labels|] == labels && before[..|before|] == before;
    if NoVictims(labels) {
      forall i | 0 <= i < |before| ensures Victim(RunFrom(INIT, before[..i]), before[i]).None? {
        assert Victim(RunFrom(INIT, labels[..i]), labels[i]).None?;
      }
      assert Victim(RunFrom(INIT, labels[..|before|]), labels[|before|]).None?;
    }
    if AlwaysIntact(labels) {
      forall n | 0 <= n <= |before| ensures Intact(RunFrom(INIT, before[..n])) { assert Intact(RunFrom(INIT, labels[..n])); }
      assert Intact(RunFrom(INIT, labels[..|labels|]));
    }
  }

  /** Over a whole run: every live relay's channel stays intact exactly when no step has a victim. */
  lemma {:induction false} IntactExactlyWhenNoVictims(labels: seq<Label>)
    ensures AlwaysIntact(labels) <==> NoVictims(labels)
  {
    if labels != [] {
      var before, last := labels[..|labels| - 1], labels[|labels| - 1];
      assert before + [last] == labels;
      IntactExactlyWhenNoVictims(before);
      UnfoldRun(before, last);
      EveryRun(before);
      if AlwaysIntact(before) { IntactExactlyWithoutVictim(RunFrom(INIT, before), last); }
    }
  }

  // ---- What becomes of a victim.

  predicate OnlyFails(relay: Relay) {
    relay.slot.Dropped? && (relay.phase.Resolved? ==> relay.phase.outcome.Failed?)
  }

  lemma DroppedStaysDropped(s: State, l: Label, r: RelayId)
    requires Inv(s) && r in s.relays && OnlyFails(s.relays[r])
    ensures r in Step(s, l).relays && OnlyFails(Step(s, l).relays[r])
  {
    match l
    case Register(_, callId) => DropTouchesOneId(s, callId);
    case Withdraw(q) => if In(s, q, WriteFailed) { DropTouchesOneId(s, s.relays[q].callId); }
    case _ =>
  }

  lemma {:induction false} InvRuns(s: State, labels: seq<Label>)
    requires Inv(s)
    ensures Inv(RunFrom(s, labels))
  {
    if labels != [] {
      InvRuns(s, labels[..|labels| - 1]);
      OneStep(RunFrom(s, labels[..|labels| - 1]), labels[|labels| - 1]);
    }
  }

  lemma {:induction false} DroppedForGood(s: State, labels: seq<Label>, r: RelayId)
    requires Inv(s) && r in s.relays && OnlyFails(s.relays[r])
    ensures r in RunFrom(s, labels).relays && OnlyFails(RunFrom(s, labels).relays[r])
  {
    if labels != [] {
      DroppedForGood(s, labels[..|labels| - 1], r);
      InvRuns(s, labels[..|labels| - 1]);
      DroppedStaysDropped(RunFrom(s, labels[..|labels| - 1]), labels[|labels| - 1], r);
    }
  }

  /** Whatever happens afterwards, a victim never gets its reply: if it resolves at all, it has failed. */
  lemma VictimCanOnlyFail(s: State, l: Label, labels: seq<Label>)
    requires Inv(s) && Victim(s, l).Some?
    ensures var r := Victim(s, l).value;
            var after := RunFrom(Step(s, l), labels);
            r in after.relays && (after.relays[r].phase.Resolved? ==> after.relays[r].phase.outcome.Failed?)
  {
    var r := Victim(s, l).value;
    DropsExactlyTheVictim(s, l, r);
    OneStep(s, l);
    DroppedForGood(Step(s, l), labels, r);
  }

  // ---- Runs without victims.

  /** Nobody is told `Disconnected` before the reader has drained. */
  ghost predicate Truthful(s: State) {
    !(s.reader.Drained? || s.reader.Closed?) ==>
      forall r | r in s.relays ::
        s.relays[r].slot != Filled(Failed(Disconnected)) && s.relays[r].phase != Resolved(Failed(Disconnected))
  }

  lemma StepIsTruthful(s: State, l: Label)
    requires Inv(s) && Intact(s) && Truthful(s)
    ensures Truthful(Step(s, l))
  {
    match l
    case Register(_, callId) => DropTouchesOneId(s, callId);
    case Withdraw(q) => if In(s, q, WriteFailed) { DropTouchesOneId(s, s.relays[q].callId); }
    case WriteOk(_) =>
    case WriteErr(_) =>
    case Wake(_) =>
    case Abandon(_) =>
    case _ => ReaderOnlyFills(s, l);
  }

  /** Without victims a relay is told `Disconnected` only because the link is gone. */
  lemma {:induction false} NoVictimsNoFalseAlarms(labels: seq<Label>)
    requires NoVictims(labels)
    ensures Intact(RunFrom(INIT, labels)) && Truthful(RunFrom(INIT, labels))
  {
    if labels != [] {
      var before, last := labels[..|labels| - 1], labels[|labels| - 1];
      assert before + [last] == labels;
      UnfoldRun(before, last);
      NoVictimsNoFalseAlarms(before);
      EveryRun(before);
      IntactExactlyWithoutVictim(RunFrom(INIT, before), last);
      StepIsTruthful(RunFrom(INIT, before), last);
    }
  }

  // ---- Distinct ids are enough.

  /** Every registration uses an id that no live relay is using. */
  ghost predicate DistinctIds(labels: seq<Label>) {
    forall i | 0 <= i < |labels| && labels[i].Register? ::
      var s := RunFrom(INIT, labels[..i]);
      forall r | Live(s, r) :: s.relays[r].callId != labels[i].callId
  }

  ghost predicate LiveIdsAreDistinct(s: State) {
    forall r, q | Live(s, r) && Live(s, q) && s.relays[r].callId == s.relays[q].callId :: r == q
  }

  lemma DistinctStep(s: State, l: Label)
    requires Inv(s) && LiveIdsAreDistinct(s)
    requires l.Register? ==> forall r | Live(s, r) :: s.relays[r].callId != l.callId
    ensures LiveIdsAreDistinct(Step(s, l)) && Victim(s, l).None?
  {
    forall r | Live(Step(s, l), r)
      ensures r in s.relays ==> Live(s, r) && Step(s, l).relays[r].callId == s.relays[r].callId
      ensures r !in s.relays ==> l.Register? && l.r == r && Step(s, l).relays[r].callId == l.callId
    {
      LiveBefore(s, l, r);
    }
  }

  /** With distinct outstanding ids no step has a victim, so no relay is failed by another's activity. */
  lemma {:induction false} DistinctIdsNeverInterfere(labels: seq<Label>)
    requires DistinctIds(labels)
    ensures NoVictims(labels) && LiveIdsAreDistinct(RunFrom(INIT, labels))
  {
    if labels != [] {
      var before, last := labels[..|labels| - 1], labels[|labels| - 1];
      assert before + [last] == labels;
      assert forall i | 0 <= i < |before| :: before[i] == labels[i] && before[..i] == labels[..i];
      DistinctIdsNeverInterfere(before);
      EveryRun(before);
      DistinctStep(RunFrom(INIT, before), last);
      UnfoldRun(before, last);
    }
  }

  /** Without victims the relays left hanging when `closed` fires are exactly those that registered after the drain. */
  lemma HangsExactlyWhenLate(labels: seq<Label>, r: RelayId)
    requires NoVictims(labels) && RunFrom(INIT, labels).reader.Closed? && Live(RunFrom(INIT, labels), r)
    ensures Answerless(RunFrom(INIT, labels), r) <==> !RunFrom(INIT, labels).relays[r].early
  {
    EveryRun(labels);
    NoVictimsNoFalseAlarms(labels);
  }

  /** There are victims: a second relay with the same id fails the first while the link is up. */
  lemma ReusedIdFailsTheFirst(callId: CallId)
    ensures var s := RunFrom(INIT, [Register(0, callId), WriteOk(0), Register(1, callId), Wake(0)]);
            s.reader.Reading? && In(s, 0, Resolved(Failed(Disconnected)))
  {
    var labels := [Register(0, callId), WriteOk(0), Register(1, callId), Wake(0)];
    var one, two, three := [labels[0]], [labels[0], labels[1]], [labels[0], labels[1], labels[2]];
    assert labels[..3] == three;
    assert three[..2] == two;
    assert two[..1] == one;
    assert one[..0] == [];
    assert RunFrom(INIT, one) == State(map[0 := Relay(callId, Writing, Empty, true)], map[callId := 0], Reading);
    assert RunFrom(INIT, two) == State(map[0 := Relay(callId, Awaiting, Empty, true)], map[callId := 0], Reading);
    assert RunFrom(INIT, three).relays[0] == Relay(callId, Awaiting, Dropped, true);
  }
}
