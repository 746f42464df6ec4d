/**
  The law every provider enforces on a history: each call has its result,
  directly after the message that made the call.

  `Balanced` states the law outright. `Owed` is the same law as a left-to-right
  scan, which is the form that composes: over appended messages, over a cut, and
  over a history whose last calls are still unanswered.
 */
module Histories {
  import opened Wrappers
  import opened Messages

  type Ids = multiset<string>

  function IdsOf(calls: seq<Call>): Ids {
    if calls == [] then multiset{} else multiset{calls[0].id} + IdsOf(calls[1..])
  }

  function ResultIds(parts: seq<ContentPart>): Ids {
    if parts == [] then multiset{}
    else (if parts[0].ToolResult? then multiset{parts[0].callId} else multiset{}) + ResultIds(parts[1..])
  }

  /** A message that cannot answer anything: an assistant turn, or a real user message. */
  predicate Opens(m: Message) {
    m.role.Assistant? || IsSafeBoundary(m)
  }

  function Calls(m: Message): Ids {
    if m.role.Assistant? then IdsOf(ToolCalls(m.parts)) else multiset{}
  }

  /** The results carried by the messages before the next opener. */
  function LeadingAnswers(h: seq<Message>): Ids {
    if h == [] || Opens(h[0]) then multiset{} else ResultIds(h[0].parts) + LeadingAnswers(h[1..])
  }

  /** Every opener's calls are answered, as a multiset, by the messages directly after it. */
  ghost predicate AllAnswered(h: seq<Message>) {
    forall i | 0 <= i < |h| && Opens(h[i]) :: Calls(h[i]) == LeadingAnswers(h[i + 1..])
  }

  ghost predicate Balanced(h: seq<Message>) {
    LeadingAnswers(h) == multiset{} && AllAnswered(h)
  }

  /** One step of the scan: `None` once a call was left behind or a result answers nothing. */
  function Receive(owed: Option<Ids>, m: Message): Option<Ids> {
    if owed.None? then None
    else if Opens(m) then (if owed.value == multiset{} then Some(Calls(m)) else None)
    else if ResultIds(m.parts) <= owed.value then Some(owed.value - ResultIds(m.parts))
    else None
  }

  function Scan(owed: Option<Ids>, h: seq<Message>): Option<Ids>
    decreases h
  {
    if h == [] then owed else Scan(Receive(owed, h[0]), h[1..])
  }

  /** The calls a history still owes answers to; `None` when it is beyond repair by appending. */
  function Owed(h: seq<Message>): Option<Ids> {
    Scan(Some(multiset{}), h)
  }

  const NOTHING_OWED: Option<Ids> := Some(multiset{})

  lemma {:induction false} ScanNone(h: seq<Message>)
    ensures Scan(None, h).None?
  {
    if h != [] { ScanNone(h[1..]); }
  }

  lemma {:induction false} ScanConcat(owed: Option<Ids>, a: seq<Message>, b: seq<Message>)
    ensures Scan(owed, a + b) == Scan(Scan(owed, a), b)
    decreases a
  {
    if a == [] {
      assert a + b == b;
    } else {
      assert (a + b)[1..] == a[1..] + b;
      ScanConcat(Receive(owed, a[0]), a[1..], b);
    }
  }

  lemma OwedAppend(h: seq<Message>, m: Message)
    ensures Owed(h + [m]) == Receive(Owed(h), m)
  {
    ScanConcat(Some(multiset{}), h, [m]);
  }

  lemma AllAnsweredUnfold(h: seq<Message>)
    requires h != []
    ensures AllAnswered(h) <==> (Opens(h[0]) ==> Calls(h[0]) == LeadingAnswers(h[1..])) && AllAnswered(h[1..])
  {
    var rest := h[1..];
    forall i | 0 <= i < |rest| ensures rest[i] == h[i + 1] && rest[i + 1..] == h[i + 2..] {}
    if AllAnswered(rest) {
      forall i | 0 < i < |h| && Opens(h[i]) ensures Calls(h[i]) == LeadingAnswers(rest[i..]) {
        assert h[i] == rest[i - 1];
      }
    }
  }

  /** The scan owing `ids` succeeds exactly when the leading answers are `ids` and the rest is answered. */
  lemma {:induction false} ScanMeansBalanced(ids: Ids, h: seq<Message>)
    ensures Scan(Some(ids), h) == Some(multiset{}) <==> LeadingAnswers(h) == ids && AllAnswered(h)
    decreases h
  {
    if h != [] {
      AllAnsweredUnfold(h);
      var next := Receive(Some(ids), h[0]);
      if next.None? {
        ScanNone(h[1..]);
      } else {
        ScanMeansBalanced(next.value, h[1..]);
      }
    }
  }

  /** The declarative law and the scan agree on every history. */
  lemma BalancedIsNothingOwed(h: seq<Message>)
    ensures Balanced(h) <==> Owed(h) == Some(multiset{})
  {
    ScanMeansBalanced(multiset{}, h);
  }

  /** A balanced history may be cut before any opener: both halves are balanced. */
  lemma CutBeforeOpener(h: seq<Message>, cut: nat)
    requires Balanced(h)
    requires cut < |h| ==> Opens(h[cut])
    requires cut <= |h|
    ensures Balanced(h[..cut]) && Balanced(h[cut..])
  {
    BalancedIsNothingOwed(h);
    BalancedIsNothingOwed(h[..cut]);
    BalancedIsNothingOwed(h[cut..]);
    assert h == h[..cut] + h[cut..];
    ScanConcat(Some(multiset{}), h[..cut], h[cut..]);
    if cut < |h| {
      ScanNone(h[cut..][1..]);
    }
  }

  /** A user message with no result keeps a balanced history balanced on either side. */
  lemma AddBoundary(h: seq<Message>, m: Message)
    requires Balanced(h) && IsSafeBoundary(m)
    ensures Balanced(h + [m]) && Balanced([m] + h)
  {
    BalancedIsNothingOwed(h);
    BalancedIsNothingOwed(h + [m]);
    BalancedIsNothingOwed([m] + h);
    OwedAppend(h, m);
    ScanConcat(Some(multiset{}), [m], h);
  }

  /** A tool message answering exactly one call. */
  predicate Answers(m: Message, id: string) {
    m.role.Tool? && |m.parts| == 1 && m.parts[0].ToolResult? && m.parts[0].callId == id
  }

  function AnsweredBy(messages: seq<Message>): Ids {
    if messages == [] then multiset{} else ResultIds(messages[0].parts) + AnsweredBy(messages[1..])
  }

  /** Appending answers to owed calls settles exactly those calls. */
  lemma {:induction false} AppendAnswers(h: seq<Message>, messages: seq<Message>)
    requires forall m | m in messages :: m.role.Tool?
    requires Owed(h).Some? && AnsweredBy(messages) <= Owed(h).value
    ensures Owed(h + messages) == Some(Owed(h).value - AnsweredBy(messages))
  {
    ScanConcat(Some(multiset{}), h, messages);
    ScanAnswers(Owed(h).value, messages);
  }

  /** What remains owed after a batch's results is whatever the batch left unanswered. */
  lemma SettleBatch(h: seq<Message>, messages: seq<Message>, rest: Ids)
    requires forall m | m in messages :: m.role.Tool?
    requires Owed(h) == Some(AnsweredBy(messages) + rest)
    ensures Owed(h + messages) == Some(rest)
  {
    AppendAnswers(h, messages);
    assert AnsweredBy(messages) + rest - AnsweredBy(messages) == rest;
  }

  lemma {:induction false} ScanAnswers(ids: Ids, messages: seq<Message>)
    requires forall m | m in messages :: m.role.Tool?
    requires AnsweredBy(messages) <= ids
    ensures Scan(Some(ids), messages) == Some(ids - AnsweredBy(messages))
    decreases messages
  {
    if messages == [] {
      assert ids - multiset{} == ids;
    } else {
      assert messages[0] in messages;
      var left := ids - ResultIds(messages[0].parts);
      ScanAnswers(left, messages[1..]);
      assert left - AnsweredBy(messages[1..]) == ids - AnsweredBy(messages);
    }
  }

  // ---- What a run's input does to the law.

  function InputIds(results: seq<ResultInput>): Ids {
    if results == [] then multiset{} else multiset{results[0].callId} + InputIds(results[1..])
  }

  function ResultParts(results: seq<ResultInput>): seq<ContentPart> {
    seq(|results|, i requires 0 <= i < |results| =>
      ToolResult(results[i].callId, results[i].output, results[i].isError, results[i].artifacts))
  }

  lemma {:induction false} ResultPartsAnswer(results: seq<ResultInput>)
    ensures ResultIds(ResultParts(results)) == InputIds(results)
  {
    if results != [] {
      ResultPartsAnswer(results[1..]);
      assert ResultParts(results)[1..] == ResultParts(results[1..]);
    }
  }

  lemma BalancedWith(h: seq<Message>, m: Message)
    ensures Balanced(h + [m]) <==> Receive(Owed(h), m) == NOTHING_OWED
  {
    OwedAppend(h, m);
    BalancedIsNothingOwed(h + [m]);
  }

  lemma FollowsExactly(h: seq<Message>, m: Message)
    requires Opens(m) ==> Calls(m) == multiset{}
    ensures Balanced(h + [m]) <==> Owed(h) == Some(if Opens(m) then multiset{} else ResultIds(m.parts))
  {
    OwedAppend(h, m);
    BalancedIsNothingOwed(h + [m]);
    if !Opens(m) && Owed(h).Some? && ResultIds(m.parts) <= Owed(h).value {
      var owed, ids := Owed(h).value, ResultIds(m.parts);
      assert owed == ids + (owed - ids) && ids + multiset{} == ids && ids - ids == multiset{};
    }
  }

  /**
    A user message may follow exactly a history that owes nothing; results may follow exactly
    a history that owes answers to the very calls they answer, such as one a stopped run left.
   */
  lemma InputKeepsTheLaw(h: seq<Message>, input: Input)
    ensures Balanced(h + [ToMessage(input)]) <==>
            Owed(h) == Some(if input.UserInput? then multiset{} else InputIds(input.results))
  {
    var m := ToMessage(input);
    if input.ResultsInput? {
      assert m.parts == ResultParts(input.results) && !Opens(m);
      ResultPartsAnswer(input.results);
    } else {
      assert IsSafeBoundary(m);
    }
    FollowsExactly(h, m);
  }

  // ---- Which ids are counted.

  /** The ids of calls, each as often as it occurs. */
  lemma {:induction false} IdsAreTheCallsIds(calls: seq<Call>)
    ensures IdsOf(calls) == multiset(seq(|calls|, i requires 0 <= i < |calls| => calls[i].id))
  {
    var ids := seq(|calls|, i requires 0 <= i < |calls| => calls[i].id);
    if calls == [] {
      assert ids == [];
    } else {
      IdsAreTheCallsIds(calls[1..]);
      var tail := calls[1..];
      var rest := seq(|tail|, i requires 0 <= i < |tail| => tail[i].id);
      assert ids == [calls[0].id] + rest;
    }
  }

  /** The ids a message answers are those of its parts. */
  lemma {:induction false} ResultIdsOfBoth(a: seq<ContentPart>, b: seq<ContentPart>)
    ensures ResultIds(a + b) == ResultIds(a) + ResultIds(b)
  {
    if a == [] {
      assert a + b == b;
    } else {
      assert (a + b)[1..] == a[1..] + b;
      ResultIdsOfBoth(a[1..], b);
    }
  }

  lemma ResultIdOfOne(p: ContentPart)
    ensures ResultIds([p]) == if p.ToolResult? then multiset{p.callId} else multiset{}
  {
    assert [p][1..] == [] && ResultIds([]) == multiset{};
  }

  lemma {:induction false} NoResultNoIds(parts: seq<ContentPart>)
    ensures ResultIds(parts) == multiset{} <==> forall p | p in parts :: !p.ToolResult?
  {
    if parts != [] {
      NoResultNoIds(parts[1..]);
      assert parts == [parts[0]] + parts[1..];
      if parts[0].ToolResult? {
        assert parts[0].callId in ResultIds(parts);
      } else {
        assert multiset{} + ResultIds(parts[1..]) == ResultIds(parts[1..]);
      }
    }
  }

  /** The messages a window may begin with are the user's that answer no call. */
  lemma SafeMeansNothingAnswered(m: Message)
    ensures IsSafeBoundary(m) <==> m.role == User && ResultIds(m.parts) == multiset{}
  {
    NoResultNoIds(m.parts);
  }
}
