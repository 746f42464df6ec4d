/** The transports of live runtime connections, and everyone waiting for one to appear. */
module Registry {
  import opened Wrappers

  type RuntimeId = string
  /** A transport is named by the connection it was built on. */
  type TransportId = nat
  /** A waiter is named by the position at which its receiver was handed out. */
  type Waiter = nat

  /** One send on a waiter's channel, and whether the runtime had a transport at that moment. */
  datatype Answer = Answer(waiter: Waiter, outcome: Result<(), string>, present: bool)

  datatype Table = Table(
    transports: map<RuntimeId, TransportId>,
    pending: map<RuntimeId, seq<Waiter>>,
    receivers: seq<RuntimeId>,
    answers: seq<Answer>)

  const EMPTY := Table(map[], map[], [], [])

  function Waiting(t: Table, id: RuntimeId): seq<Waiter> {
    if id in t.pending then t.pending[id] else []
  }

  function Replies(ws: seq<Waiter>, outcome: Result<(), string>, present: bool): seq<Answer> {
    seq(|ws|, i requires 0 <= i < |ws| => Answer(ws[i], outcome, present))
  }

  /** All of an id's waiters get the same answer, in queue order, and the queue is gone. */
  function Resolve(t: Table, id: RuntimeId, outcome: Result<(), string>): Table {
    t.(pending := t.pending - {id}, answers := t.answers + Replies(Waiting(t, id), outcome, id in t.transports))
  }

  datatype Op =
    | Register(id: RuntimeId, transport: TransportId)
    | TryRegister(id: RuntimeId, transport: TransportId)
    | NotifyWhenReady(id: RuntimeId)
    | FailPending(id: RuntimeId, message: string)
    | Remove(id: RuntimeId)

  function Apply(t: Table, op: Op): Table {
    match op
    case Register(id, transport) => Resolve(t.(transports := t.transports[id := transport]), id, Ok(()))
    case TryRegister(id, transport) =>
      if id in t.transports then t
      else Resolve(t.(transports := t.transports[id := transport]), id, Ok(()))
    case NotifyWhenReady(id) =>
      t.(pending := t.pending[id := Waiting(t, id) + [|t.receivers|]], receivers := t.receivers + [id])
    case FailPending(id, message) => Resolve(t, id, Err(message))
    case Remove(id) => t.(transports := t.transports - {id})
  }

  function Replay(ops: seq<Op>): Table {
    if ops == [] then EMPTY else Apply(Replay(ops[..|ops| - 1]), ops[|ops| - 1])
  }

  // ---- Conservation of waiters.

  function WaitersOf(answers: seq<Answer>): seq<Waiter> {
    if answers == [] then [] else WaitersOf(answers[..|answers| - 1]) + [answers[|answers| - 1].waiter]
  }

  type Queues = map<RuntimeId, seq<Waiter>>

  /** How often a waiter is still queued under its own runtime. */
  function Queued(pending: Queues, id: RuntimeId, w: Waiter): nat {
    if id in pending then multiset(pending[id])[w] else 0
  }

  /**
    Each receiver handed out is queued once under its own runtime or was answered once, never
    both and never neither, and a queue holds only its own runtime's waiters.
   */
  ghost predicate EachOnce(pending: Queues, receivers: seq<RuntimeId>, answered: seq<Waiter>) {
    && (forall w | 0 <= w < |receivers| :: Queued(pending, receivers[w], w) + multiset(answered)[w] == 1)
    && (forall id, i | id in pending && 0 <= i < |pending[id]| ::
          pending[id][i] < |receivers| && receivers[pending[id][i]] == id)
    && (forall i | 0 <= i < |answered| :: answered[i] < |receivers|)
  }

  /** Whoever was told `Ok` was told while the transport was present. */
  ghost predicate ToldTruly(answers: seq<Answer>) {
    forall i | 0 <= i < |answers| :: answers[i].outcome.Ok? ==> answers[i].present
  }

  ghost predicate Conserved(t: Table) {
    EachOnce(t.pending, t.receivers, WaitersOf(t.answers)) && ToldTruly(t.answers)
  }

  lemma {:induction false} RepliesAreForTheWaiters(answers: seq<Answer>, ws: seq<Waiter>, outcome: Result<(), string>, present: bool)
    ensures WaitersOf(answers + Replies(ws, outcome, present)) == WaitersOf(answers) + ws
  {
    var all := answers + Replies(ws, outcome, present);
    if ws == [] {
      assert all == answers;
    } else {
      var init := ws[..|ws| - 1];
      assert all[..|all| - 1] == answers + Replies(init, outcome, present);
      RepliesAreForTheWaiters(answers, init, outcome, present);
      assert init + [ws[|ws| - 1]] == ws;
    }
  }

  lemma AnswerAll(pending: Queues, receivers: seq<RuntimeId>, answered: seq<Waiter>, id: RuntimeId)
    requires EachOnce(pending, receivers, answered)
    ensures EachOnce(pending - {id}, receivers, answered + if id in pending then pending[id] else [])
  {
    var ws := if id in pending then pending[id] else [];
    forall w | 0 <= w < |receivers|
      ensures Queued(pending - {id}, receivers[w], w) + multiset(answered + ws)[w] == 1
    {
      assert Queued(pending, receivers[w], w) + multiset(answered)[w] == 1;
      if receivers[w] != id {
        assert w !in ws;
        assert Queued(pending - {id}, receivers[w], w) == Queued(pending, receivers[w], w);
      }
    }
  }

  lemma QueueOne(pending: Queues, receivers: seq<RuntimeId>, answered: seq<Waiter>, id: RuntimeId)
    requires EachOnce(pending, receivers, answered)
    ensures var ws := if id in pending then pending[id] else [];
            EachOnce(pending[id := ws + [|receivers|]], receivers + [id], answered)
  {
    var ws := if id in pending then pending[id] else [];
    var w', pending', receivers' := |receivers|, pending[id := ws + [|receivers|]], receivers + [id];
    assert w' !in ws && w' !in answered;
    forall w | 0 <= w < |receivers'|
      ensures Queued(pending', receivers'[w], w) + multiset(answered)[w] == 1
    {
      if w < w' {
        assert receivers'[w] == receivers[w];
        assert Queued(pending, receivers[w], w) + multiset(answered)[w] == 1;
        assert Queued(pending', receivers[w], w) == Queued(pending, receivers[w], w);
      }
    }
  }

  lemma RepliesAreTrue(answers: seq<Answer>, ws: seq<Waiter>, outcome: Result<(), string>, present: bool)
    requires ToldTruly(answers) && (outcome.Ok? ==> present)
    ensures ToldTruly(answers + Replies(ws, outcome, present))
  {
  }

  lemma ResolveConserves(t: Table, id: RuntimeId, outcome: Result<(), string>)
    requires Conserved(t) && (outcome.Ok? ==> id in t.transports)
    ensures Conserved(Resolve(t, id, outcome))
  {
    var ws, present := Waiting(t, id), id in t.transports;
    RepliesAreForTheWaiters(t.answers, ws, outcome, present);
    AnswerAll(t.pending, t.receivers, WaitersOf(t.answers), id);
    RepliesAreTrue(t.answers, ws, outcome, present);
  }

  lemma StepConserves(t: Table, op: Op)
    requires Conserved(t)
    ensures Conserved(Apply(t, op))
  {
    match op
    case Register(id, transport) =>
      ResolveConserves(t.(transports := t.transports[id := transport]), id, Ok(()));
    case TryRegister(id, transport) =>
      if id !in t.transports {
        ResolveConserves(t.(transports := t.transports[id := transport]), id, Ok(()));
      }
    case NotifyWhenReady(id) => QueueOne(t.pending, t.receivers, WaitersOf(t.answers), id);
    case FailPending(id, message) => ResolveConserves(t, id, Err(message));
    case Remove(id) =>
  }

  /** A new receiver waits at the end of its runtime's queue, once. */
  lemma NewWaiterIsQueued(t: Table, id: RuntimeId)
    requires Conserved(t)
    ensures Queued(Apply(t, NotifyWhenReady(id)).pending, id, |t.receivers|) == 1
  {
    var ws := Waiting(t, id);
    assert |t.receivers| !in ws;
    assert multiset(ws + [|t.receivers|]) == multiset(ws) + multiset{|t.receivers|};
  }

  /** Over every run of the registry no waiter is lost, displaced or answered twice. */
  lemma {:induction false} WaitersAreConserved(ops: seq<Op>)
    ensures Conserved(Replay(ops))
  {
    if ops != [] {
      WaitersAreConserved(ops[..|ops| - 1]);
      StepConserves(Replay(ops[..|ops| - 1]), ops[|ops| - 1]);
    }
  }

  /** Who is told what, and when: registering tells its runtime's waiters `Ok`, failing tells them the message, nothing else tells anyone. */
  lemma WhatWaitersAreTold(t: Table, op: Op)
    ensures var told := Apply(t, op).answers[|t.answers|..];
            var ws := Waiting(t, op.id);
            match op
            case Register(id, _) => |told| == |ws| && forall i | 0 <= i < |ws| :: told[i] == Answer(ws[i], Ok(()), true)
            case TryRegister(id, _) =>
              if id in t.transports then told == []
              else |told| == |ws| && forall i | 0 <= i < |ws| :: told[i] == Answer(ws[i], Ok(()), true)
            case FailPending(id, message) =>
              |told| == |ws| && forall i | 0 <= i < |ws| :: told[i] == Answer(ws[i], Err(message), id in t.transports)
            case _ => told == []
  {
  }

  /** No operation takes a receiver or an answer back, and queues only grow at the end or are answered whole. */
  lemma StepOnlyAdds(t: Table, op: Op, id: RuntimeId)
    ensures t.receivers <= Apply(t, op).receivers && t.answers <= Apply(t, op).answers
    ensures Waiting(t, id) <= Waiting(Apply(t, op), id) ||
            (Waiting(Apply(t, op), id) == [] &&
             WaitersOf(Apply(t, op).answers) == WaitersOf(t.answers) + Waiting(t, id))
  {
    if op.id == id {
      RepliesAreForTheWaiters(t.answers, Waiting(t, id), Ok(()), true);
      if op.FailPending? {
        RepliesAreForTheWaiters(t.answers, Waiting(t, id), Err(op.message), id in t.transports);
      }
    }
  }

  /** The object itself. */
  class ConnectedRuntimeRegistry {
    var transports: map<RuntimeId, TransportId>
    var pending: map<RuntimeId, seq<Waiter>>
    var created: nat
    // What the channels have seen: whose each one is, and every answer sent on one.
    ghost var receivers: seq<RuntimeId>
    ghost var answers: seq<Answer>

    ghost function Contents(): Table
      reads this
    {
      Table(transports, pending, receivers, answers)
    }

    ghost predicate Valid()
      reads this
    {
      Conserved(Contents()) && created == |receivers|
    }

    constructor ()
      ensures Valid() && Contents() == EMPTY
    {
      transports, pending, created, receivers, answers := map[], map[], 0, [], [];
    }

    method ResolveAll(id: RuntimeId, outcome: Result<(), string>)
      modifies this`pending, this`answers
      ensures Contents() == Resolve(old(Contents()), id, outcome)
    {
      var ws := if id in pending then pending[id] else [];
      pending := pending - {id};
      for i := 0 to |ws|
        invariant pending == old(pending) - {id}
        invariant answers == old(answers) + Replies(ws, outcome, id in transports)[..i]
      {
        answers := answers + [Answer(ws[i], outcome, id in transports)];
      }
      assert Replies(ws, outcome, id in transports)[..|ws|] == Replies(ws, outcome, id in transports);
    }

    method RegisterTransport(id: RuntimeId, transport: TransportId)
      requires Valid()
      modifies this
      ensures Valid() && Contents() == Apply(old(Contents()), Register(id, transport))
    {
      StepConserves(Contents(), Register(id, transport));
      transports := transports[id := transport];
      ResolveAll(id, Ok(()));
    }

    method TryRegisterTransport(id: RuntimeId, transport: TransportId) returns (registered: bool)
      requires Valid()
      modifies this
      ensures Valid() && Contents() == Apply(old(Contents()), TryRegister(id, transport))
      ensures registered <==> id !in old(transports)
      ensures !registered ==> Contents() == old(Contents())
    {
      StepConserves(Contents(), TryRegister(id, transport));
      if id in transports {
        return false;
      }
      transports := transports[id := transport];
      ResolveAll(id, Ok(()));
      registered := true;
    }

    method NotifyWhenReady(id: RuntimeId) returns (receiver: Waiter)
      requires Valid()
      modifies this
      ensures Valid() && Contents() == Apply(old(Contents()), Op.NotifyWhenReady(id))
      ensures receiver == |old(receivers)| && Queued(Contents().pending, id, receiver) == 1
    {
      StepConserves(Contents(), Op.NotifyWhenReady(id));
      NewWaiterIsQueued(Contents(), id);
      receiver := Enqueue(id);
    }

    method Enqueue(id: RuntimeId) returns (receiver: Waiter)
      requires created == |receivers|
      modifies this
      ensures Contents() == Apply(old(Contents()), Op.NotifyWhenReady(id))
      ensures receiver == |old(receivers)| && created == |receivers|
    {
      receiver := created;
      var queue := if id in pending then pending[id] else [];
      pending := pending[id := queue + [receiver]];
      created, receivers := created + 1, receivers + [id];
    }

    method FailPending(id: RuntimeId, message: string)
      requires Valid()
      modifies this
      ensures Valid() && Contents() == Apply(old(Contents()), Op.FailPending(id, message))
    {
      StepConserves(Contents(), Op.FailPending(id, message));
      ResolveAll(id, Err(message));
    }

    method Remove(id: RuntimeId)
      requires Valid()
      modifies this
      ensures Valid() && Contents() == Apply(old(Contents()), Op.Remove(id))
    {
      ghost var after := Apply(Contents(), Op.Remove(id));
      StepConserves(Contents(), Op.Remove(id));
      transports := transports - {id};
      assert Contents() == after;
    }
  }
}
