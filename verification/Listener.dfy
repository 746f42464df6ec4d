/**
  Runtime connections dialling in, as a transition system: any number of handlers
  interleave with token rotation, waiters and an owner that may stop a runtime.

  A connection is upgraded if its bearer names a runtime, announces an id, is
  checked against the registry, builds its transport, registers it, and removes
  it by id once its link has dropped.
 */
module Listener {
  import opened Wrappers
  import T = IssuedTokens
  import R = Registry

  type RuntimeId = string
  type ConnId = nat

  datatype Phase = Upgraded | Announced | Checked | Registered | Gone

  /**
    `auth` is what `token` named at the upgrade, after `at` token operations. `closed` is the
    transport's closed signal. `evicted` records that an entry was removed by this connection's
    id while it was registered.
   */
  datatype Conn = Conn(phase: Phase, token: T.Token, auth: RuntimeId, at: nat, closed: bool, evicted: bool)

  datatype System = System(ops: seq<T.Op>, registry: R.Table, conns: map<ConnId, Conn>)

  const INIT := System([], R.EMPTY, map[])

  datatype Label =
    | TokenOp(op: T.Op)
    | Dial(c: ConnId, token: T.Token)
    | Announce(c: ConnId, id: RuntimeId)
    | GiveUp(c: ConnId)
    | Check(c: ConnId)
    | Register(c: ConnId)
    | LinkDrop(c: ConnId)
    | Deregister(c: ConnId)
    | Await(id: RuntimeId)
    | FailPending(id: RuntimeId, message: string)
    | Stop(id: RuntimeId)

  predicate In(s: System, c: ConnId, phase: Phase) {
    c in s.conns && s.conns[c].phase == phase
  }

  function Move(s: System, c: ConnId, phase: Phase): System
    requires c in s.conns
  {
    s.(conns := s.conns[c := s.conns[c].(phase := phase)])
  }

  function Evict(conn: Conn, id: RuntimeId): Conn {
    if conn.phase == Registered && conn.auth == id then conn.(evicted := true) else conn
  }

  /** The entry for `id`, taken away from whichever connection holds it. */
  function Removed(s: System, id: RuntimeId): System {
    System(s.ops, R.Apply(s.registry, R.Remove(id)), map c | c in s.conns :: Evict(s.conns[c], id))
  }

  /** One step. A label that is not enabled leaves the system as it was. */
  function Step(s: System, l: Label): System {
    match l
    case TokenOp(op) => s.(ops := s.ops + [op])
    case Dial(c, token) =>
      var named := T.Replay(s.ops).Resolve(token);
      if c in s.conns || named.None? then s
      else s.(conns := s.conns[c := Conn(Upgraded, token, named.value, |s.ops|, false, false)])
    case Announce(c, id) =>
      if !In(s, c, Upgraded) then s else Move(s, c, if id == s.conns[c].auth then Announced else Gone)
    case GiveUp(c) =>
      if !In(s, c, Upgraded) then s else Move(s, c, Gone)
    case Check(c) =>
      if !In(s, c, Announced) then s
      else Move(s, c, if s.conns[c].auth in s.registry.transports then Gone else Checked)
    case Register(c) =>
      if !In(s, c, Checked) then s
      else
        var id := s.conns[c].auth;
        Move(s.(registry := R.Apply(s.registry, R.TryRegister(id, c))), c,
             if id in s.registry.transports then Gone else Registered)
    case LinkDrop(c) =>
      if In(s, c, Checked) || In(s, c, Registered) then s.(conns := s.conns[c := s.conns[c].(closed := true)]) else s
    case Deregister(c) =>
      if In(s, c, Registered) && s.conns[c].closed
      then Move(Removed(s, s.conns[c].auth), c, Gone)
      else s
    case Await(id) => s.(registry := R.Apply(s.registry, R.NotifyWhenReady(id)))
    case FailPending(id, message) => s.(registry := R.Apply(s.registry, R.FailPending(id, message)))
    case Stop(id) => Removed(s, id)
  }

  function Run(labels: seq<Label>): System {
    if labels == [] then INIT else Step(Run(labels[..|labels| - 1]), labels[|labels| - 1])
  }

  predicate Holds(s: System, c: ConnId, id: RuntimeId) {
    id in s.registry.transports && s.registry.transports[id] == c
  }

  /** Every entry is held by a registered connection that authenticated as its id. */
  ghost predicate EntriesAreAuthentic(s: System) {
    forall id | id in s.registry.transports ::
      var c := s.registry.transports[id];
      In(s, c, Registered) && s.conns[c].auth == id
  }

  /** A registered connection holds its entry exactly as long as nobody has removed by its id. */
  ghost predicate HoldersAreUnevicted(s: System) {
    forall c | In(s, c, Registered) :: Holds(s, c, s.conns[c].auth) <==> !s.conns[c].evicted
  }

  /** A connection was upgraded on a token that named its runtime then. */
  ghost predicate UpgradesAreAuthentic(s: System) {
    forall c | c in s.conns ::
      && s.conns[c].at <= |s.ops|
      && T.Replay(s.ops[..s.conns[c].at]).Resolve(s.conns[c].token) == Some(s.conns[c].auth)
  }

  ghost predicate Inv(s: System) {
    Owned(s) && UpgradesAreAuthentic(s) && R.Conserved(s.registry)
  }

  ghost predicate Owned(s: System) {
    && EntriesAreAuthentic(s) && HoldersAreUnevicted(s)
    && forall c | c in s.conns && s.conns[c].phase in {Upgraded, Announced, Checked} :: !s.conns[c].evicted
  }

  lemma RemovalKeepsOwnership(s: System, id: RuntimeId)
    requires Owned(s)
    ensures Owned(Removed(s, id))
  {
  }

  lemma RegistrationKeepsOwnership(s: System, c: ConnId)
    requires Owned(s)
    ensures Owned(Step(s, Register(c)))
  {
  }

  /** A handler's own move that neither registers nor deregisters. */
  lemma PrivateMoveKeepsOwnership(s: System, c: ConnId, conn: Conn)
    requires Owned(s) && (conn.phase in {Upgraded, Announced, Checked} ==> !conn.evicted)
    requires if In(s, c, Registered) then conn == s.conns[c].(closed := conn.closed) else conn.phase != Registered
    ensures Owned(s.(conns := s.conns[c := conn]))
  {
  }

  lemma StepKeepsOwnership(s: System, l: Label)
    requires Owned(s)
    ensures Owned(Step(s, l))
  {
    var after := Step(s, l);
    match l
    case Register(c) => RegistrationKeepsOwnership(s, c);
    case Deregister(c) =>
      if after != s {
        RemovalKeepsOwnership(s, s.conns[c].auth);
        DeregistrationKeepsOwnership(Removed(s, s.conns[c].auth), c);
      }
    case Stop(id) => RemovalKeepsOwnership(s, id);
    case Dial(c, _) => if after != s { PrivateMoveKeepsOwnership(s, c, after.conns[c]); }
    case Announce(c, _) => if after != s { PrivateMoveKeepsOwnership(s, c, after.conns[c]); }
    case GiveUp(c) => if after != s { PrivateMoveKeepsOwnership(s, c, after.conns[c]); }
    case Check(c) => if after != s { PrivateMoveKeepsOwnership(s, c, after.conns[c]); }
    case LinkDrop(c) => if after != s { PrivateMoveKeepsOwnership(s, c, after.conns[c]); }
    case TokenOp(_) =>
    case Await(_) =>
    case FailPending(_, _) =>
  }

  lemma DeregistrationKeepsOwnership(s: System, c: ConnId)
    requires Owned(s) && In(s, c, Registered) && s.conns[c].auth !in s.registry.transports
    ensures Owned(Move(s, c, Gone))
  {
  }

  /** No step changes what an existing connection authenticated with. */
  lemma CredentialsAreFixed(s: System, l: Label)
    ensures forall c | c in Step(s, l).conns :: c !in s.conns ==>
              l.Dial? && T.Replay(s.ops).Resolve(Step(s, l).conns[c].token) == Some(Step(s, l).conns[c].auth)
              && Step(s, l).conns[c].at == |s.ops|
    ensures forall c | c in s.conns ::
              var was, now := s.conns[c], Step(s, l).conns[c];
              c in Step(s, l).conns && was.token == now.token && was.auth == now.auth && was.at == now.at
  {
  }

  lemma StepKeepsUpgrades(s: System, l: Label)
    requires UpgradesAreAuthentic(s)
    ensures UpgradesAreAuthentic(Step(s, l))
  {
    CredentialsAreFixed(s, l);
    var after := Step(s, l);
    assert s.ops[..|s.ops|] == s.ops && s.ops <= after.ops;
    forall c | c in after.conns
      ensures after.conns[c].at <= |after.ops|
      ensures T.Replay(after.ops[..after.conns[c].at]).Resolve(after.conns[c].token) == Some(after.conns[c].auth)
    {
      assert after.ops[..after.conns[c].at] == s.ops[..after.conns[c].at];
    }
  }

  lemma StepKeepsWaiters(s: System, l: Label)
    requires R.Conserved(s.registry)
    ensures R.Conserved(Step(s, l).registry)
  {
    match l
    case Register(c) =>
      if In(s, c, Checked) { R.StepConserves(s.registry, R.TryRegister(s.conns[c].auth, c)); }
    case Await(id) => R.StepConserves(s.registry, R.NotifyWhenReady(id));
    case FailPending(id, message) => R.StepConserves(s.registry, R.FailPending(id, message));
    case _ =>
  }

  lemma OneStep(s: System, l: Label)
    requires Inv(s)
    ensures Inv(Step(s, l))
  {
    StepKeepsOwnership(s, l);
    StepKeepsUpgrades(s, l);
    StepKeepsWaiters(s, l);
  }

  /** Every reachable state, over all interleavings, satisfies the invariant. */
  lemma {:induction false} EveryRun(labels: seq<Label>)
    ensures Inv(Run(labels))
  {
    if labels != [] {
      EveryRun(labels[..|labels| - 1]);
      OneStep(Run(labels[..|labels| - 1]), labels[|labels| - 1]);
    }
  }

  /**
    A transport registered under `id` belongs to a registered connection whose bearer was the
    latest live token of `id` when it was upgraded, and to no other connection still holding on.
   */
  lemma RegisteredTransportIsAuthentic(labels: seq<Label>, id: RuntimeId)
    requires id in Run(labels).registry.transports
    ensures var s := Run(labels);
            var c := s.registry.transports[id];
            && In(s, c, Registered) && s.conns[c].auth == id && !s.conns[c].evicted
            && s.conns[c].at <= |s.ops| && T.LatestToken(s.ops[..s.conns[c].at], id) == Some(s.conns[c].token)
            && forall d | In(s, d, Registered) && s.conns[d].auth == id && !s.conns[d].evicted :: d == c
  {
    EveryRun(labels);
    var s := Run(labels);
    var c := s.registry.transports[id];
    assert Holds(s, c, id);
    T.ResolvesOnlyTheLatest(s.ops[..s.conns[c].at]);
  }

  // ---- What was announced.

  predicate IsAdmitted(phase: Phase) {
    phase.Announced? || phase.Checked? || phase.Registered?
  }

  /** At step `i` of the run, connection `c`, just upgraded, announced `id`. */
  predicate AnnouncedAt(labels: seq<Label>, i: nat, c: ConnId, id: RuntimeId)
    requires i < |labels|
  {
    labels[i] == Announce(c, id) && In(Run(labels[..i]), c, Upgraded)
  }

  /** A step admits a connection only by its announcing the id it authenticated as. */
  lemma AdmittedByAnnouncing(s: System, l: Label, c: ConnId)
    requires c in Step(s, l).conns && IsAdmitted(Step(s, l).conns[c].phase)
    ensures c in s.conns && s.conns[c].auth == Step(s, l).conns[c].auth
    ensures IsAdmitted(s.conns[c].phase) || (l == Announce(c, s.conns[c].auth) && In(s, c, Upgraded))
  {
  }

  /** Over every run: a connection that got past its handshake announced, when upgraded, the very id its bearer named. */
  lemma {:induction false} WhoeverIsAdmittedAnnouncedItself(labels: seq<Label>, c: ConnId) returns (i: nat)
    requires c in Run(labels).conns && IsAdmitted(Run(labels).conns[c].phase)
    ensures i < |labels| && AnnouncedAt(labels, i, c, Run(labels).conns[c].auth)
  {
    var before, last := labels[..|labels| - 1], labels[|labels| - 1];
    AdmittedByAnnouncing(Run(before), last, c);
    if IsAdmitted(Run(before).conns[c].phase) {
      i := WhoeverIsAdmittedAnnouncedItself(before, c);
      assert labels[..i] == before[..i];
    } else {
      i := |labels| - 1;
    }
  }

  /** So every entry is held by a connection that announced the entry's id. */
  lemma HoldersAnnouncedTheirEntry(labels: seq<Label>, id: RuntimeId) returns (i: nat)
    requires id in Run(labels).registry.transports
    ensures i < |labels| && AnnouncedAt(labels, i, Run(labels).registry.transports[id], id)
  {
    EveryRun(labels);
    assert Holds(Run(labels), Run(labels).registry.transports[id], id);
    i := WhoeverIsAdmittedAnnouncedItself(labels, Run(labels).registry.transports[id]);
  }

  function RunFrom(s: System, labels: seq<Label>): System {
    if labels == [] then s else Step(RunFrom(s, labels[..|labels| - 1]), labels[|labels| - 1])
  }

  lemma GoneStays(s: System, l: Label, c: ConnId)
    requires In(s, c, Gone)
    ensures In(Step(s, l), c, Gone)
  {
  }

  lemma {:induction false} GoneForGood(s: System, labels: seq<Label>, c: ConnId)
    requires In(s, c, Gone)
    ensures In(RunFrom(s, labels), c, Gone)
  {
    if labels != [] {
      GoneForGood(s, labels[..|labels| - 1], c);
      GoneStays(RunFrom(s, labels[..|labels| - 1]), labels[|labels| - 1], c);
    }
  }

  /** A connection that announces another id than its bearer's is gone for good, and never touches the registry. */
  lemma MismatchIsRefused(s: System, c: ConnId, id: RuntimeId, labels: seq<Label>)
    requires In(s, c, Upgraded) && id != s.conns[c].auth
    ensures Step(s, Announce(c, id)).registry == s.registry
    ensures var after := RunFrom(Step(s, Announce(c, id)), labels);
            && In(after, c, Gone)
            && forall l | l in {Announce(c, id), GiveUp(c), Check(c), Register(c), LinkDrop(c), Deregister(c)} ::
                 Step(after, l) == after
  {
    GoneForGood(Step(s, Announce(c, id)), labels, c);
  }

  /** Who gives up or comes second is gone, the latter with the registry as it was. */
  lemma TurnedAway(s: System, c: ConnId)
    ensures In(s, c, Upgraded) ==> In(Step(s, GiveUp(c)), c, Gone)
    ensures In(s, c, Announced) && s.conns[c].auth in s.registry.transports ==> In(Step(s, Check(c)), c, Gone)
    ensures In(s, c, Checked) && s.conns[c].auth in s.registry.transports ==>
              In(Step(s, Register(c)), c, Gone) && Step(s, Register(c)).registry == s.registry
  {
  }

  /** Whoever waits for a runtime is told when it registers. */
  lemma WaiterHearsOfRegistration(s: System, id: RuntimeId, c: ConnId)
    requires In(s, c, Checked) && s.conns[c].auth == id && id !in s.registry.transports
    ensures var w := |s.registry.receivers|;
            var after := Step(Step(s, Await(id)), Register(c)).registry;
            after.answers != [] && after.answers[|after.answers| - 1] == R.Answer(w, Ok(()), true)
  {
    var waiting := Step(s, Await(id));
    assert R.Waiting(waiting.registry, id) == R.Waiting(s.registry, id) + [|s.registry.receivers|];
  }

  /** And whoever waits for one that failed is told why. */
  lemma WaiterHearsOfFailure(s: System, id: RuntimeId, message: string)
    ensures var w := |s.registry.receivers|;
            var after := Step(Step(s, Await(id)), FailPending(id, message)).registry;
            after.answers != [] && after.answers[|after.answers| - 1] == R.Answer(w, Err(message), id in s.registry.transports)
  {
    var waiting := Step(s, Await(id));
    assert R.Waiting(waiting.registry, id) == R.Waiting(s.registry, id) + [|s.registry.receivers|];
  }

  ghost predicate NobodyEvicted(s: System) {
    forall c | c in s.conns :: !s.conns[c].evicted || s.conns[c].phase == Gone
  }

  lemma DepartureEvictsNobody(s: System, c: ConnId)
    requires Owned(s) && NobodyEvicted(s) && In(s, c, Registered) && s.conns[c].closed
    ensures NobodyEvicted(Step(s, Deregister(c)))
  {
    var id := s.conns[c].auth;
    assert Holds(s, c, id);
    forall d | In(s, d, Registered) && s.conns[d].auth == id ensures d == c {
      assert Holds(s, d, id);
    }
  }

  lemma StepEvictsNobody(s: System, l: Label)
    requires Owned(s) && NobodyEvicted(s) && !l.Stop?
    ensures NobodyEvicted(Step(s, l))
  {
    if l.Deregister? && In(s, l.c, Registered) && s.conns[l.c].closed {
      DepartureEvictsNobody(s, l.c);
    }
  }

  /** Without an external removal by id, registered connections and entries are one to one. */
  lemma {:induction false} WithoutStopsEveryRegistrationHolds(labels: seq<Label>)
    requires forall i | 0 <= i < |labels| :: !labels[i].Stop?
    ensures NobodyEvicted(Run(labels))
    ensures forall c | In(Run(labels), c, Registered) :: Holds(Run(labels), c, Run(labels).conns[c].auth)
  {
    EveryRun(labels);
    if labels != [] {
      var before := labels[..|labels| - 1];
      WithoutStopsEveryRegistrationHolds(before);
      EveryRun(before);
      StepEvictsNobody(Run(before), labels[|labels| - 1]);
    }
  }

  /** Dialling, announcing (rightly or not), checking, giving up, losing the race and dropping change no entry and no queue. */
  lemma OnlyAWinnerChangesTheRegistry(s: System, l: Label)
    requires l.Dial? || l.Announce? || l.GiveUp? || l.Check? || l.LinkDrop? || l.TokenOp? || l.Register?
    ensures Step(s, l).registry == s.registry || (l.Register? && In(s, l.c, Checked) && s.conns[l.c].auth !in s.registry.transports)
    ensures Step(s, l).registry != s.registry ==>
              Step(s, l).registry.transports == s.registry.transports[s.conns[l.c].auth := l.c]
  {
  }

  /**
    Deregistering touches one entry at most, the connection's own, unless somebody removed by
    its id before: it takes another connection's entry exactly when it was evicted and a
    successor has registered since.
   */
  lemma DeregisterTakesItsOwn(s: System, c: ConnId)
    requires Owned(s) && In(s, c, Registered) && s.conns[c].closed
    ensures var id := s.conns[c].auth;
            && Step(s, Deregister(c)).registry.transports == s.registry.transports - {id}
            && (Holds(s, c, id) <==> !s.conns[c].evicted)
            && ((exists d :: d != c && Holds(s, d, id)) <==> s.conns[c].evicted && id in s.registry.transports)
  {
    var id := s.conns[c].auth;
    if s.conns[c].evicted && id in s.registry.transports {
      assert Holds(s, s.registry.transports[id], id) && !Holds(s, c, id);
    }
  }

  lemma Extend(labels: seq<Label>, l: Label)
    ensures Run(labels + [l]) == Step(Run(labels), l)
  {
    assert (labels + [l])[..|labels|] == labels;
  }

  lemma ExtendByTwo(labels: seq<Label>, l: Label, m: Label)
    ensures Run(labels + [l] + [m]) == Step(Step(Run(labels), l), m)
  {
    Extend(labels, l);
    Extend(labels + [l], m);
  }

  lemma Arrives(s: System, c: ConnId, t: T.Token, id: RuntimeId)
    requires c !in s.conns && T.Replay(s.ops).Resolve(t) == Some(id)
    ensures Step(Step(s, Dial(c, t)), Announce(c, id)) ==
            s.(conns := s.conns[c := Conn(Announced, t, id, |s.ops|, false, false)])
  {
    var dialled := Step(s, Dial(c, t));
    assert dialled.conns[c] == Conn(Upgraded, t, id, |s.ops|, false, false);
  }

  lemma Admits(s: System, c: ConnId)
    requires In(s, c, Announced) && s.conns[c].auth !in s.registry.transports
    ensures var s' := Step(Step(s, Check(c)), Register(c));
            && s'.ops == s.ops && s'.registry.transports == s.registry.transports[s.conns[c].auth := c]
            && s'.conns == s.conns[c := s.conns[c].(phase := Registered)]
  {
    var checked := Step(s, Check(c));
    assert checked.conns[c] == s.conns[c].(phase := Checked) && checked.registry == s.registry;
  }

  /** A connection that goes through unhindered ends up registered. */
  lemma Connect(labels: seq<Label>, c: ConnId, t: T.Token, id: RuntimeId) returns (after: seq<Label>)
    requires var s := Run(labels);
             c !in s.conns && id !in s.registry.transports && T.Replay(s.ops).Resolve(t) == Some(id)
    ensures var s, s' := Run(labels), Run(after);
            && s'.ops == s.ops && s'.registry.transports == s.registry.transports[id := c]
            && s'.conns == s.conns[c := Conn(Registered, t, id, |s.ops|, false, false)]
  {
    ExtendByTwo(labels, Dial(c, t), Announce(c, id));
    Arrives(Run(labels), c, t, id);
    var arrived := labels + [Dial(c, t)] + [Announce(c, id)];
    ExtendByTwo(arrived, Check(c), Register(c));
    Admits(Run(arrived), c);
    after := arrived + [Check(c)] + [Register(c)];
  }

  lemma Departs(s: System, c: ConnId, d: ConnId)
    requires In(s, c, Registered) && In(s, d, Registered) && c != d
    ensures var s' := Step(Step(s, LinkDrop(c)), Deregister(c));
            && s'.registry.transports == s.registry.transports - {s.conns[c].auth}
            && In(s', d, Registered) && s'.conns[d].auth == s.conns[d].auth && s'.conns[d].closed == s.conns[d].closed
  {
    var dropped := Step(s, LinkDrop(c));
    assert In(dropped, c, Registered) && dropped.conns[c].closed && dropped.conns[d] == s.conns[d];
  }

  lemma AfterOneIssue(t: T.Token, id: RuntimeId)
    ensures Run([TokenOp(T.Issue(t, id))]) == INIT.(ops := [T.Issue(t, id)])
    ensures T.Replay([T.Issue(t, id)]).Resolve(t) == Some(id)
  {
    Extend([], TokenOp(T.Issue(t, id)));
    assert [] + [TokenOp(T.Issue(t, id))] == [TokenOp(T.Issue(t, id))];
    assert [T.Issue(t, id)][..0] == [];
  }

  /** And that can happen: stop a runtime, let it dial back, and the first link's late deregistration removes the second. */
  lemma StopCanHitASuccessor(t: T.Token, id: RuntimeId) returns (labels: seq<Label>)
    ensures In(Run(labels), 1, Registered) && Run(labels).conns[1].auth == id
    ensures !Run(labels).conns[1].closed && id !in Run(labels).registry.transports
  {
    AfterOneIssue(t, id);
    labels := Connect([TokenOp(T.Issue(t, id))], 0, t, id);
    Extend(labels, Stop(id));
    labels := Connect(labels + [Stop(id)], 1, t, id);
    ExtendByTwo(labels, LinkDrop(0), Deregister(0));
    Departs(Run(labels), 0, 1);
    labels := labels + [LinkDrop(0)] + [Deregister(0)];
  }
}
