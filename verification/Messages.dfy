/**
  Messages, content parts and run inputs.

  Every text is the sequence of its UTF-8 code units, one `char` per byte, so
  `|text|` is the byte length Rust's `str::len` reports. A JSON value is the
  compact text it renders to. Timestamps are not modelled.
 */
module Messages {
  import opened Wrappers

  const U32_MAX: nat := 0xFFFF_FFFF

  datatype Role = User | Assistant | Tool

  datatype ArtifactKind = Image(width: Option<nat>, height: Option<nat>) | Document

  datatype ArtifactRef = ArtifactRef(id: string, kind: ArtifactKind)

  datatype ContentPart =
    | Text(text: string)
    | ToolCall(call: Call)
    | ToolResult(callId: string, output: string, isError: bool, artifacts: seq<ArtifactRef>)
    | Thinking(thought: string)
    | SubAgentResult(report: string)
    | Artifact(artifact: ArtifactRef)

  datatype Call = Call(id: string, name: string, input: string)

  datatype Message = Message(id: string, role: Role, parts: seq<ContentPart>)

  datatype ResultInput = ResultInput(callId: string, output: string, isError: bool, artifacts: seq<ArtifactRef>)

  datatype Input =
    | UserInput(id: string, text: string, artifacts: seq<ArtifactRef>, reports: seq<string>)
    | ResultsInput(results: seq<ResultInput>)

  /** The calls an assistant turn requests, in the order it requests them. */
  function ToolCalls(parts: seq<ContentPart>): seq<Call> {
    if parts == [] then []
    else (if parts[0].ToolCall? then [parts[0].call] else []) + ToolCalls(parts[1..])
  }

  /** The text of a turn: its text parts, joined. */
  function TextOf(parts: seq<ContentPart>): string {
    if parts == [] then ""
    else (if parts[0].Text? then parts[0].text else "") + TextOf(parts[1..])
  }

  /** What a run's input becomes in the history. */
  function ToMessage(input: Input): Message {
    match input
    case UserInput(id, text, artifacts, reports) =>
      Message(id, User,
              (if text != "" then [Text(text)] else [])
              + seq(|artifacts|, i requires 0 <= i < |artifacts| => Artifact(artifacts[i]))
              + seq(|reports|, i requires 0 <= i < |reports| => SubAgentResult(reports[i])))
    case ResultsInput(results) =>
      Message("result:" + (if results == [] then "none" else results[0].callId), Tool,
              seq(|results|, i requires 0 <= i < |results| =>
                ToolResult(results[i].callId, results[i].output, results[i].isError, results[i].artifacts)))
  }

  /** Whether a message may begin a retained window: a user message carrying no tool result. */
  predicate IsSafeBoundary(m: Message) {
    m.role.User? && forall p | p in m.parts :: !p.ToolResult?
  }

  // ---- Nothing is lost in a message.

  /** The calls of a turn are those of its parts, in order. */
  lemma {:induction false} CallsOfBoth(a: seq<ContentPart>, b: seq<ContentPart>)
    ensures ToolCalls(a + b) == ToolCalls(a) + ToolCalls(b)
  {
    if a == [] {
      assert a + b == b;
    } else {
      assert (a + b)[1..] == a[1..] + b;
      CallsOfBoth(a[1..], b);
      var first, rest := if a[0].ToolCall? then [a[0].call] else [], ToolCalls(a[1..]);
      assert first + rest + ToolCalls(b) == first + (rest + ToolCalls(b));
    }
  }

  lemma CallOfOne(p: ContentPart)
    ensures ToolCalls([p]) == if p.ToolCall? then [p.call] else []
  {
    assert [p][1..] == [] && ToolCalls([]) == [];
  }

  /** Its text is that of its parts, in order. */
  lemma {:induction false} TextOfBoth(a: seq<ContentPart>, b: seq<ContentPart>)
    ensures TextOf(a + b) == TextOf(a) + TextOf(b)
  {
    if a == [] {
      assert a + b == b;
    } else {
      assert (a + b)[1..] == a[1..] + b;
      TextOfBoth(a[1..], b);
      var first, rest := if a[0].Text? then a[0].text else "", TextOf(a[1..]);
      assert first + rest + TextOf(b) == first + (rest + TextOf(b));
    }
  }

  lemma TextOfOne(p: ContentPart)
    ensures TextOf([p]) == if p.Text? then p.text else ""
  {
    assert [p][1..] == [] && TextOf([]) == "";
  }

  /** A user's input becomes its text, unless that is empty, then its artifacts, then its reports; results become one part each. */
  lemma InputIsAllThere(input: Input)
    ensures var m := ToMessage(input);
            match input
            case UserInput(id, text, artifacts, reports) =>
              var t := if text == "" then 0 else 1;
              && m.id == id && m.role == User && |m.parts| == t + |artifacts| + |reports|
              && (text != "" ==> m.parts[0] == Text(text))
              && (forall i | 0 <= i < |artifacts| :: m.parts[t + i] == Artifact(artifacts[i]))
              && (forall i | 0 <= i < |reports| :: m.parts[t + |artifacts| + i] == SubAgentResult(reports[i]))
            case ResultsInput(results) =>
              && m.role == Tool && |m.parts| == |results|
              && forall i | 0 <= i < |results| ::
                   m.parts[i] == ToolResult(results[i].callId, results[i].output, results[i].isError, results[i].artifacts)
  {
  }

  lemma UserInputIsSafe(input: Input)
    ensures input.UserInput? ==> IsSafeBoundary(ToMessage(input))
  {
  }
}
