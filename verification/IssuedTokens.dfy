/** Tokens and runtimes: a table kept in both directions, and the record of operations that led to it. */
module IssuedTokens {
  import opened Wrappers

  type Token = string
  type RuntimeId = string

  /** The two maps, as values. */
  datatype Table = Table(byToken: map<Token, RuntimeId>, byRuntime: map<RuntimeId, Token>) {
    function Resolve(token: Token): Option<RuntimeId> {
      if token in byToken then Some(byToken[token]) else None
    }
  }

  const EMPTY := Table(map[], map[])

  datatype Op = Issue(token: Token, runtime: RuntimeId) | Revoke(runtime: RuntimeId)

  function Apply(t: Table, op: Op): Table {
    match op
    case Issue(token, r) =>
      var cleared := if r in t.byRuntime then t.byToken - {t.byRuntime[r]} else t.byToken;
      Table(cleared[token := r], t.byRuntime[r := token])
    case Revoke(r) =>
      if r in t.byRuntime then Table(t.byToken - {t.byRuntime[r]}, t.byRuntime - {r}) else t
  }

  function Replay(ops: seq<Op>): Table {
    if ops == [] then EMPTY else Apply(Replay(ops[..|ops| - 1]), ops[|ops| - 1])
  }

  /** The object itself. */
  class Tokens {
    var byToken: map<Token, RuntimeId>
    var byRuntime: map<RuntimeId, Token>
    ghost var ops: seq<Op>

    ghost predicate Valid()
      reads this
    {
      Contents() == Replay(ops)
    }

    ghost function Contents(): Table
      reads this
    {
      Table(byToken, byRuntime)
    }

    constructor ()
      ensures Valid() && ops == []
    {
      byToken, byRuntime, ops := map[], map[], [];
    }

    method Issue(token: Token, runtime: RuntimeId)
      requires Valid()
      modifies this
      ensures Valid() && ops == old(ops) + [Op.Issue(token, runtime)]
    {
      assert (ops + [Op.Issue(token, runtime)])[..|ops|] == ops;
      if runtime in byRuntime {
        var previous := byRuntime[runtime];
        byToken := byToken - {previous};
      }
      byRuntime := byRuntime[runtime := token];
      byToken := byToken[token := runtime];
      ops := ops + [Op.Issue(token, runtime)];
    }

    /** The runtime this token names: only ever the runtime whose latest live token it is. */
    method Resolve(token: Token) returns (r: Option<RuntimeId>)
      requires Valid()
      ensures r == Contents().Resolve(token)
      ensures r.Some? ==> LatestToken(ops, r.value) == Some(token)
    {
      r := if token in byToken then Some(byToken[token]) else None;
      ResolvesOnlyTheLatest(ops);
    }

    method RevokeRuntime(runtime: RuntimeId)
      requires Valid()
      modifies this
      ensures Valid() && ops == old(ops) + [Revoke(runtime)]
    {
      assert (ops + [Revoke(runtime)])[..|ops|] == ops;
      if runtime in byRuntime {
        var token := byRuntime[runtime];
        byRuntime := byRuntime - {runtime};
        byToken := byToken - {token};
      }
      ops := ops + [Revoke(runtime)];
    }
  }

  /** What the record of operations says: a runtime's latest token, unless it was revoked since. */
  function LatestToken(ops: seq<Op>, r: RuntimeId): Option<Token> {
    if ops == [] then None
    else
      var last := ops[|ops| - 1];
      if last.runtime != r then LatestToken(ops[..|ops| - 1], r)
      else if last.Issue? then Some(last.token)
      else None
  }

  /** In every run, a token resolves only to the runtime whose latest token it is: rotation and revocation kill it. */
  lemma {:induction false} ResolvesOnlyTheLatest(ops: seq<Op>)
    ensures forall t | t in Replay(ops).byToken :: LatestToken(ops, Replay(ops).byToken[t]) == Some(t)
    ensures forall r :: LatestToken(ops, r) == if r in Replay(ops).byRuntime then Some(Replay(ops).byRuntime[r]) else None
  {
    if ops != [] {
      ResolvesOnlyTheLatest(ops[..|ops| - 1]);
    }
  }

  /** Hence a runtime never has two live tokens. */
  lemma AtMostOneLiveToken(ops: seq<Op>, t1: Token, t2: Token, r: RuntimeId)
    requires Replay(ops).Resolve(t1) == Some(r) && Replay(ops).Resolve(t2) == Some(r)
    ensures t1 == t2
  {
    ResolvesOnlyTheLatest(ops);
  }

  /** The two maps are each other's inverse. */
  ghost predicate Inverse(t: Table) {
    && (forall k | k in t.byToken :: t.byToken[k] in t.byRuntime && t.byRuntime[t.byToken[k]] == k)
    && (forall r | r in t.byRuntime :: t.byRuntime[r] in t.byToken && t.byToken[t.byRuntime[r]] == r)
  }

  /** The operation issues a token that is the live token of another runtime. */
  ghost predicate Shares(before: seq<Op>, op: Op) {
    op.Issue? && exists r :: r != op.runtime && LatestToken(before, r) == Some(op.token)
  }

  ghost predicate NeverShared(ops: seq<Op>) {
    forall i | 0 <= i < |ops| :: !Shares(ops[..i], ops[i])
  }

  /** On the maps: issuing a token that another runtime holds is what breaks them. */
  lemma ApplyKeepsInverse(t: Table, op: Op)
    requires Inverse(t)
    ensures Inverse(Apply(t, op)) <==>
            !(op.Issue? && exists r | r in t.byRuntime :: r != op.runtime && t.byRuntime[r] == op.token)
  {
    var after := Apply(t, op);
    if op.Issue? && exists r | r in t.byRuntime :: r != op.runtime && t.byRuntime[r] == op.token {
      var r :| r in t.byRuntime && r != op.runtime && t.byRuntime[r] == op.token;
      assert after.byRuntime[r] == op.token && after.byToken[op.token] == op.runtime;
    }
  }

  lemma OneMoreOperation(before: seq<Op>, op: Op)
    requires Inverse(Replay(before))
    ensures Inverse(Replay(before + [op])) <==> !Shares(before, op)
  {
    assert (before + [op])[..|before|] == before;
    ResolvesOnlyTheLatest(before);
    ApplyKeepsInverse(Replay(before), op);
  }

  ghost predicate AlwaysInverse(ops: seq<Op>) {
    forall n | 0 <= n <= |ops| :: Inverse(Replay(ops[..n]))
  }

  lemma UnfoldRun(before: seq<Op>, op: Op)
    ensures NeverShared(before + [op]) <==> NeverShared(before) && !Shares(before, op)
    ensures AlwaysInverse(before + [op]) <==> AlwaysInverse(before) && Inverse(Replay(before + [op]))
    ensures AlwaysInverse(before) ==> Inverse(Replay(before))
  {
    var ops := before + [op];
    assert forall i | 0 <= i <= |before| :: ops[..i] == before[..i];
    assert ops[..|ops|] == ops && before[..|before|] == before;
    if NeverShared(ops) {
      forall i | 0 <= i < |before| ensures !Shares(before[..i], before[i]) { assert !Shares(ops[..i], ops[i]); }
      assert !Shares(ops[..|before|], ops[|before|]);
    }
    if AlwaysInverse(ops) {
      forall n | 0 <= n <= |before| ensures Inverse(Replay(before[..n])) { assert Inverse(Replay(ops[..n])); }
      assert Inverse(Replay(ops[..|ops|]));
    }
  }

  /**
    The maps stay inverse at every moment of a run, so that every live token resolves,
    exactly when no live token is ever issued again to a different runtime.
   */
  lemma {:induction false} InverseExactlyWhenNeverShared(ops: seq<Op>)
    ensures NeverShared(ops) <==> AlwaysInverse(ops)
  {
    if ops != [] {
      var before, last := ops[..|ops| - 1], ops[|ops| - 1];
      assert before + [last] == ops;
      InverseExactlyWhenNeverShared(before);
      UnfoldRun(before, last);
      if AlwaysInverse(before) {
        OneMoreOperation(before, last);
      }
    }
  }

  /** While the maps are inverse, resolving a token and having it as latest token are the same thing. */
  lemma ResolveMeansLatest(ops: seq<Op>, t: Token, r: RuntimeId)
    requires Inverse(Replay(ops))
    ensures Replay(ops).Resolve(t) == Some(r) <==> LatestToken(ops, r) == Some(t)
  {
    ResolvesOnlyTheLatest(ops);
  }

  /** Sharing does break it: rotating the first holder retires the token the second still holds. */
  lemma SharedTokenDies(t: Token, newer: Token, a: RuntimeId, b: RuntimeId)
    requires a != b && t != newer
    ensures var ops := [Issue(t, a), Issue(t, b), Issue(newer, a)];
            LatestToken(ops, b) == Some(t) && Replay(ops).Resolve(t) == None
  {
    var ops := [Issue(t, a), Issue(t, b), Issue(newer, a)];
    var two := ops[..2];
    assert two == [Issue(t, a), Issue(t, b)] && two[..1] == [Issue(t, a)] && two[..1][..0] == [];
    assert Replay(two[..1]) == Table(map[t := a], map[a := t]);
    assert Replay(two).byRuntime[a] == t;
  }
}
