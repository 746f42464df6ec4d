/**
  The Anthropic streaming fold with retry. One stream has two views, the events
  emitted as it arrives and the parts assembled when it ends, and they must tell
  the same story, across attempts that were abandoned on the way.

  Each attempt's stream is an input. JSON is the text it renders to, and parsing
  it is a parameter.
 */
module AnthropicStream {
  import opened Wrappers
  import opened Strings

  const MAX_STREAM_RETRIES: nat := 6
  const TWO_POW_32: nat := 0x1_0000_0000

  datatype Start = TextStart | ToolStart(id: string, name: string) | ThinkingStart | OtherStart

  datatype Delta = TextDelta(text: string) | JsonDelta(json: string) | ThinkingDelta(text: string) | SignatureDelta(signature: string)

  datatype WireUsage = WireUsage(input: Option<nat>, output: Option<nat>, creation: Option<nat>, read: Option<nat>)

  datatype StreamEvent =
    | MessageStart(usage: Option<WireUsage>)
    | BlockStart(index: nat, start: Start)
    | BlockDelta(index: nat, delta: Delta)
    | BlockStop(index: nat)
    | MessageDelta(reason: Option<string>, usage: Option<WireUsage>)
    | MessageStop

  datatype LlmError = Backend(message: string) | EventSink | Dropped | Unparseable(tool: string)

  datatype Item = Event(event: StreamEvent) | Failure(error: LlmError, retryable: bool)

  datatype Emission =
    | TextBlockStart(index: nat)
    | ToolCallStart(index: nat, id: string, name: string)
    | ThinkingBlockStart(index: nat)
    | TextChunk(index: nat, text: string)
    | ToolCallInputDelta(index: nat, id: string, delta: string)
    | ThinkingChunk(index: nat, text: string)
    | SignatureChunk(index: nat, signature: string)
    | ContentBlockStop(index: nat)

  datatype StopReason = EndTurn | ToolUse | MaxTokens

  datatype Part =
    | Text(text: string)
    | ToolCall(id: string, name: string, input: string)
    | Thinking(text: string, signature: Option<string>)

  datatype Usage = Usage(input: nat, output: nat, creation: Option<nat>, read: Option<nat>)

  datatype Response = Response(parts: seq<Part>, reason: StopReason, usage: Usage)

  // ---- The fold.

  datatype ToolBlock = ToolBlock(id: string, name: string, json: string)
  datatype ThinkingBlock = ThinkingBlock(text: string, signature: string)

  datatype Blocks = Blocks(text: map<nat, string>, tools: map<nat, ToolBlock>, thinking: map<nat, ThinkingBlock>) {
    predicate IsEmpty() {
      text == map[] && tools == map[] && thinking == map[]
    }

    function Indices(): set<nat> {
      text.Keys + tools.Keys + thinking.Keys
    }
  }

  const NO_BLOCKS := Blocks(map[], map[], map[])

  function FoldBlocks(b: Blocks, e: StreamEvent): Blocks {
    match e
    case BlockStart(i, TextStart) => b.(text := b.text[i := ""])
    case BlockStart(i, ToolStart(id, name)) => b.(tools := b.tools[i := ToolBlock(id, name, "")])
    case BlockStart(i, ThinkingStart) => b.(thinking := b.thinking[i := ThinkingBlock("", "")])
    case BlockDelta(i, TextDelta(t)) => if i in b.text then b.(text := b.text[i := b.text[i] + t]) else b
    case BlockDelta(i, JsonDelta(j)) =>
      if i in b.tools then b.(tools := b.tools[i := b.tools[i].(json := b.tools[i].json + j)]) else b
    case BlockDelta(i, ThinkingDelta(t)) =>
      if i in b.thinking then b.(thinking := b.thinking[i := b.thinking[i].(text := b.thinking[i].text + t)]) else b
    case BlockDelta(i, SignatureDelta(g)) =>
      if i in b.thinking then b.(thinking := b.thinking[i := b.thinking[i].(signature := b.thinking[i].signature + g)]) else b
    case _ => b
  }

  /** The event a stream event gives rise to; the index is truncated to 32 bits. */
  function EmissionFor(b: Blocks, e: StreamEvent): seq<Emission> {
    match e
    case BlockStart(i, TextStart) => [TextBlockStart(i % TWO_POW_32)]
    case BlockStart(i, ToolStart(id, name)) => [ToolCallStart(i % TWO_POW_32, id, name)]
    case BlockStart(i, ThinkingStart) => [ThinkingBlockStart(i % TWO_POW_32)]
    case BlockDelta(i, TextDelta(t)) => [TextChunk(i % TWO_POW_32, t)]
    case BlockDelta(i, JsonDelta(j)) =>
      if i in b.tools then [ToolCallInputDelta(i % TWO_POW_32, b.tools[i].id, j)] else []
    case BlockDelta(i, ThinkingDelta(t)) => [ThinkingChunk(i % TWO_POW_32, t)]
    case BlockDelta(i, SignatureDelta(g)) => [SignatureChunk(i % TWO_POW_32, g)]
    case BlockStop(i) => [ContentBlockStop(i % TWO_POW_32)]
    case _ => []
  }

  datatype Meter = Meter(reason: StopReason, input: nat, output: nat, creation: Option<nat>, read: Option<nat>)

  const FRESH_METER := Meter(EndTurn, 0, 0, None, None)

  function Or(a: Option<nat>, default: nat): nat {
    if a.Some? then a.value else default
  }

  /** `message_delta` supersedes `message_start` in every field it sets. */
  function FoldMeter(m: Meter, e: StreamEvent): Meter {
    match e
    case MessageStart(Some(u)) => m.(input := Or(u.input, 0), creation := u.creation, read := u.read)
    case MessageDelta(reason, usage) =>
      var reason' := if reason == Some("tool_use") then ToolUse else if reason == Some("max_tokens") then MaxTokens else EndTurn;
      if usage.None? then m.(reason := reason')
      else
        var u := usage.value;
        Meter(reason', Or(u.input, m.input), Or(u.output, m.output),
              if u.creation.Some? then u.creation else m.creation, if u.read.Some? then u.read else m.read)
    case _ => m
  }

  function BlocksOf(es: seq<StreamEvent>): Blocks {
    if es == [] then NO_BLOCKS else FoldBlocks(BlocksOf(es[..|es| - 1]), es[|es| - 1])
  }

  function MeterOf(es: seq<StreamEvent>): Meter {
    if es == [] then FRESH_METER else FoldMeter(MeterOf(es[..|es| - 1]), es[|es| - 1])
  }

  function Emissions(es: seq<StreamEvent>): seq<Emission> {
    if es == [] then []
    else Emissions(es[..|es| - 1]) + EmissionFor(BlocksOf(es[..|es| - 1]), es[|es| - 1])
  }

  predicate IsTerminal(e: StreamEvent) {
    e.MessageDelta? || e.MessageStop?
  }

  predicate HasTerminal(es: seq<StreamEvent>) {
    exists i | 0 <= i < |es| :: IsTerminal(es[i])
  }

  ghost predicate StartedIn(em: seq<Emission>, index: nat, id: string) {
    exists j :: 0 <= j < |em| && em[j].ToolCallStart? && em[j].index == index && em[j].id == id
  }

  lemma StartedStays(em: seq<Emission>, more: seq<Emission>, index: nat, id: string)
    requires StartedIn(em, index, id)
    ensures StartedIn(em + more, index, id)
  {
    var j :| 0 <= j < |em| && em[j].ToolCallStart? && em[j].index == index && em[j].id == id;
    assert (em + more)[j] == em[j];
  }

  /** Every tool block was started in the events under its index and its call's id. */
  lemma {:induction false} ToolBlocksWereStarted(es: seq<StreamEvent>)
    ensures forall i | i in BlocksOf(es).tools :: StartedIn(Emissions(es), i % TWO_POW_32, BlocksOf(es).tools[i].id)
  {
    if es != [] {
      var before, e := es[..|es| - 1], es[|es| - 1];
      ToolBlocksWereStarted(before);
      var b, em, out := BlocksOf(before), Emissions(before), EmissionFor(BlocksOf(before), e);
      forall i | i in BlocksOf(es).tools ensures StartedIn(em + out, i % TWO_POW_32, BlocksOf(es).tools[i].id) {
        if e.BlockStart? && e.start.ToolStart? && e.index == i {
          assert (em + out)[|em|] == out[0];
        } else {
          assert i in b.tools && b.tools[i].id == BlocksOf(es).tools[i].id;
          StartedStays(em, out, i % TWO_POW_32, b.tools[i].id);
        }
      }
    }
  }

  /** So a chunk of arguments always follows the start of the very call it names. */
  lemma {:induction false} ArgumentsFollowTheirCall(es: seq<StreamEvent>, k: nat)
    requires k < |Emissions(es)| && Emissions(es)[k].ToolCallInputDelta?
    ensures StartedIn(Emissions(es)[..k], Emissions(es)[k].index, Emissions(es)[k].id)
  {
    var before, e := es[..|es| - 1], es[|es| - 1];
    var em := Emissions(before);
    if k < |em| {
      ArgumentsFollowTheirCall(before, k);
      assert Emissions(es)[..k] == em[..k];
    } else {
      ToolBlocksWereStarted(before);
      assert Emissions(es)[..k] == em;
    }
  }

  /** The indices of the stops among the events. */
  function StopsIn(em: seq<Emission>): seq<nat> {
    if em == [] then []
    else StopsIn(em[..|em| - 1]) + if em[|em| - 1].ContentBlockStop? then [em[|em| - 1].index] else []
  }

  /** The indices the stream itself stops, as a 32-bit reader sees them. */
  function StopsOf(es: seq<StreamEvent>): seq<nat> {
    if es == [] then []
    else StopsOf(es[..|es| - 1]) + if es[|es| - 1].BlockStop? then [es[|es| - 1].index % TWO_POW_32] else []
  }

  /** Every stop of the stream is passed on, in order, and no other is made up. */
  lemma {:induction false} StopsArePassedOn(es: seq<StreamEvent>)
    ensures StopsIn(Emissions(es)) == StopsOf(es)
  {
    if es != [] {
      var before := es[..|es| - 1];
      StopsArePassedOn(before);
      var em, out := Emissions(before), EmissionFor(BlocksOf(before), es[|es| - 1]);
      if out == [] {
        assert em + out == em;
      } else {
        assert (em + out)[..|em|] == em;
      }
    }
  }

  // ---- What the meter reads: in each field, the last word.

  predicate SetsReason(e: StreamEvent) {
    e.MessageDelta?
  }

  predicate SetsOutput(e: StreamEvent) {
    e.MessageDelta? && e.usage.Some? && e.usage.value.output.Some?
  }

  /** The usage of a `message_start` speaks to these fields even where it leaves them out. */
  predicate SetsInput(e: StreamEvent) {
    (e.MessageStart? && e.usage.Some?) || (e.MessageDelta? && e.usage.Some? && e.usage.value.input.Some?)
  }

  predicate SetsCreation(e: StreamEvent) {
    (e.MessageStart? && e.usage.Some?) || (e.MessageDelta? && e.usage.Some? && e.usage.value.creation.Some?)
  }

  predicate SetsRead(e: StreamEvent) {
    (e.MessageStart? && e.usage.Some?) || (e.MessageDelta? && e.usage.Some? && e.usage.value.read.Some?)
  }

  predicate IsLast(es: seq<StreamEvent>, i: nat, sets: StreamEvent -> bool) {
    i < |es| && sets(es[i]) && forall j | i < j < |es| :: !sets(es[j])
  }

  predicate IsNever(es: seq<StreamEvent>, sets: StreamEvent -> bool) {
    forall j | 0 <= j < |es| :: !sets(es[j])
  }

  lemma LastOfMore(es: seq<StreamEvent>, e: StreamEvent, sets: StreamEvent -> bool)
    ensures forall i: nat :: IsLast(es + [e], i, sets) <==> if sets(e) then i == |es| else IsLast(es, i, sets)
    ensures IsNever(es + [e], sets) <==> IsNever(es, sets) && !sets(e)
  {
    var more := es + [e];
    assert forall j | 0 <= j < |es| :: more[j] == es[j];
    assert more[|es|] == e;
    if IsNever(more, sets) {
      forall j | 0 <= j < |es| ensures !sets(es[j]) { assert !sets(more[j]); }
    }
  }

  /** The reason is the one the last `message_delta` names, and the end of the turn if there is none. */
  ghost predicate ReasonIs(es: seq<StreamEvent>, reason: StopReason) {
    && (IsNever(es, SetsReason) ==> reason == EndTurn)
    && forall i: nat | IsLast(es, i, SetsReason) ::
         && (es[i].reason == Some("tool_use") <==> reason == ToolUse)
         && (es[i].reason == Some("max_tokens") <==> reason == MaxTokens)
  }

  ghost predicate OutputIs(es: seq<StreamEvent>, output: int) {
    && (IsNever(es, SetsOutput) ==> output == 0)
    && forall i: nat | IsLast(es, i, SetsOutput) :: Some(output) == es[i].usage.value.output
  }

  ghost predicate InputIs(es: seq<StreamEvent>, input: int) {
    && (IsNever(es, SetsInput) ==> input == 0)
    && forall i: nat | IsLast(es, i, SetsInput) ::
         if es[i].usage.value.input.Some? then input == es[i].usage.value.input.value else input == 0
  }

  ghost predicate CreationIs(es: seq<StreamEvent>, creation: Option<nat>) {
    && (IsNever(es, SetsCreation) ==> creation == None)
    && forall i: nat | IsLast(es, i, SetsCreation) :: creation == es[i].usage.value.creation
  }

  ghost predicate ReadIs(es: seq<StreamEvent>, read: Option<nat>) {
    && (IsNever(es, SetsRead) ==> read == None)
    && forall i: nat | IsLast(es, i, SetsRead) :: read == es[i].usage.value.read
  }

  /**
    What a stream says of itself: its stop reason; and its usage, where the prompt size adds
    to the uncached input the tokens written to and read from the cache.
   */
  ghost predicate Tells(es: seq<StreamEvent>, reason: StopReason, usage: Usage) {
    && ReasonIs(es, reason) && OutputIs(es, usage.output)
    && CreationIs(es, usage.creation) && ReadIs(es, usage.read)
    && InputIs(es, usage.input - (if usage.creation.Some? then usage.creation.value else 0)
                               - (if usage.read.Some? then usage.read.value else 0))
  }

  lemma FoldReason(es: seq<StreamEvent>, e: StreamEvent, m: Meter)
    requires ReasonIs(es, m.reason)
    ensures ReasonIs(es + [e], FoldMeter(m, e).reason)
  {
    LastOfMore(es, e, SetsReason);
    assert forall i | 0 <= i < |es| :: (es + [e])[i] == es[i];
    assert "tool_use"[0] == 't' && "max_tokens"[0] == 'm';
  }

  lemma FoldOutput(es: seq<StreamEvent>, e: StreamEvent, m: Meter)
    requires OutputIs(es, m.output)
    ensures OutputIs(es + [e], FoldMeter(m, e).output)
  {
    LastOfMore(es, e, SetsOutput);
    assert forall i | 0 <= i < |es| :: (es + [e])[i] == es[i];
  }

  lemma FoldInput(es: seq<StreamEvent>, e: StreamEvent, m: Meter)
    requires InputIs(es, m.input)
    ensures InputIs(es + [e], FoldMeter(m, e).input)
  {
    LastOfMore(es, e, SetsInput);
    assert forall i | 0 <= i < |es| :: (es + [e])[i] == es[i];
  }

  lemma FoldCreation(es: seq<StreamEvent>, e: StreamEvent, m: Meter)
    requires CreationIs(es, m.creation)
    ensures CreationIs(es + [e], FoldMeter(m, e).creation)
  {
    LastOfMore(es, e, SetsCreation);
    assert forall i | 0 <= i < |es| :: (es + [e])[i] == es[i];
  }

  lemma FoldRead(es: seq<StreamEvent>, e: StreamEvent, m: Meter)
    requires ReadIs(es, m.read)
    ensures ReadIs(es + [e], FoldMeter(m, e).read)
  {
    LastOfMore(es, e, SetsRead);
    assert forall i | 0 <= i < |es| :: (es + [e])[i] == es[i];
  }

  ghost predicate MeterReads(es: seq<StreamEvent>, m: Meter) {
    ReasonIs(es, m.reason) && OutputIs(es, m.output) && InputIs(es, m.input) && CreationIs(es, m.creation) && ReadIs(es, m.read)
  }

  /** Folding event by event ends on the last word in every field. */
  lemma {:induction false} MeterHasTheLastWord(es: seq<StreamEvent>)
    ensures MeterReads(es, MeterOf(es))
  {
    if es != [] {
      var before, e := es[..|es| - 1], es[|es| - 1];
      MeterHasTheLastWord(before);
      var m := MeterOf(before);
      FoldReason(before, e, m);
      FoldOutput(before, e, m);
      FoldInput(before, e, m);
      FoldCreation(before, e, m);
      FoldRead(before, e, m);
      assert before + [e] == es;
    }
  }

  lemma StreamTells(es: seq<StreamEvent>)
    ensures Tells(es, MeterOf(es).reason, UsageOf(MeterOf(es)))
  {
    MeterHasTheLastWord(es);
  }

  /** A stream is terminated by naming a stop reason or by stopping the message. */
  lemma TerminatedBy(es: seq<StreamEvent>)
    ensures HasTerminal(es) <==> exists i | 0 <= i < |es| :: es[i].MessageDelta? || es[i].MessageStop?
  {
    assert forall i | 0 <= i < |es| :: IsTerminal(es[i]) <==> es[i].MessageDelta? || es[i].MessageStop?;
  }

  // ---- Assembly.

  type Parser = string -> Option<string>

  /** Absent arguments are an empty object; unparseable ones are an error, never a substitute. */
  function ToolInput(parse: Parser, raw: string): Option<string> {
    if Trim(raw) == "" then Some("{}") else parse(raw)
  }

  function ThinkingPart(text: string, signature: string, keep: bool): seq<Part> {
    if text == "" then [] else [Thinking(text, if keep && signature != "" then Some(signature) else None)]
  }

  function ToolPart(parse: Parser, id: string, name: string, raw: string): Result<seq<Part>, LlmError> {
    var input := ToolInput(parse, raw);
    if input.Some? then Ok([ToolCall(id, name, input.value)]) else Err(Unparseable(name))
  }

  function TextPart(text: string): seq<Part> {
    if text == "" then [] else [Text(text)]
  }

  /** The part a finished block becomes. */
  function PartAt(b: Blocks, i: nat, parse: Parser, keep: bool): Result<seq<Part>, LlmError> {
    if i in b.text then Ok(TextPart(b.text[i]))
    else if i in b.tools then ToolPart(parse, b.tools[i].id, b.tools[i].name, b.tools[i].json)
    else if i in b.thinking then Ok(ThinkingPart(b.thinking[i].text, b.thinking[i].signature, keep))
    else Ok([])
  }

  /** What a part keeps of its block. */
  ghost predicate IsPartOf(part: Part, b: Blocks, i: nat, parse: Parser, keep: bool) {
    match part
    case Text(text) => i in b.text && text == b.text[i] != ""
    case ToolCall(id, name, input) =>
      && i !in b.text && i in b.tools && id == b.tools[i].id && name == b.tools[i].name
      && if Trim(b.tools[i].json) == "" then input == "{}" else parse(b.tools[i].json) == Some(input)
    case Thinking(text, signature) =>
      && i !in b.text && i !in b.tools && i in b.thinking && text == b.thinking[i].text != ""
      && (signature.Some? <==> keep && b.thinking[i].signature != "")
      && (signature.Some? ==> signature.value == b.thinking[i].signature)
  }

  /** A block becomes one part, which keeps all of it, unless it holds no text to keep or arguments that do not parse. */
  lemma BlockBecomesItsPart(b: Blocks, i: nat, parse: Parser, keep: bool)
    ensures var r := PartAt(b, i, parse, keep);
            && (r.Ok? ==> |r.value| <= 1 && forall part | part in r.value :: IsPartOf(part, b, i, parse, keep))
            && (r == Ok([]) <==>
                if i in b.text then b.text[i] == ""
                else i !in b.tools && (i in b.thinking ==> b.thinking[i].text == ""))
            && (r.Err? <==> i !in b.text && i in b.tools && Trim(b.tools[i].json) != "" && parse(b.tools[i].json).None?)
            && (r.Err? ==> r.error == Unparseable(b.tools[i].name))
  {
  }

  // ---- The reader of the events.

  predicate IsStart(e: Emission) {
    e.TextBlockStart? || e.ToolCallStart? || e.ThinkingBlockStart?
  }

  /** The event that opened block `i`. */
  function StartOf(em: seq<Emission>, i: nat): Option<Emission> {
    if em == [] then None
    else if IsStart(em[|em| - 1]) && em[|em| - 1].index == i then Some(em[|em| - 1])
    else StartOf(em[..|em| - 1], i)
  }

  datatype Kind = TextKind | ArgsKind | ThoughtKind | SignatureKind

  /** What an event contributes to one kind of content of block `i`. */
  function Chunk(e: Emission, kind: Kind, i: nat): string {
    if e.index != i then ""
    else
      match (kind, e)
      case (TextKind, TextChunk(_, t)) => t
      case (ArgsKind, ToolCallInputDelta(_, _, d)) => d
      case (ThoughtKind, ThinkingChunk(_, t)) => t
      case (SignatureKind, SignatureChunk(_, g)) => g
      case _ => ""
  }

  /** The chunks of one kind for block `i`, joined. */
  function Read(em: seq<Emission>, kind: Kind, i: nat): string {
    if em == [] then "" else Read(em[..|em| - 1], kind, i) + Chunk(em[|em| - 1], kind, i)
  }

  /** The part a reader of the events reconstructs for block `i`. */
  function PartRead(em: seq<Emission>, i: nat, parse: Parser, keep: bool): Result<seq<Part>, LlmError> {
    match StartOf(em, i)
    case Some(TextBlockStart(_)) => Ok(TextPart(Read(em, TextKind, i)))
    case Some(ToolCallStart(_, id, name)) => ToolPart(parse, id, name, Read(em, ArgsKind, i))
    case Some(ThinkingBlockStart(_)) => Ok(ThinkingPart(Read(em, ThoughtKind, i), Read(em, SignatureKind, i), keep))
    case _ => Ok([])
  }

  // ---- Both views of a well-formed stream.

  /** The event may come next: a new block takes an unused 32-bit index, and a delta or a stop names an open block of its kind. */
  predicate MayFollow(b: Blocks, e: StreamEvent) {
    match e
    case BlockStart(i, start) => start.OtherStart? || (i < TWO_POW_32 && i !in b.Indices())
    case BlockDelta(i, TextDelta(_)) => i in b.text
    case BlockDelta(i, JsonDelta(_)) => i in b.tools
    case BlockDelta(i, _) => i in b.thinking
    case BlockStop(i) => i in b.Indices()
    case _ => true
  }

  predicate WellFormed(es: seq<StreamEvent>) {
    es == [] || (WellFormed(es[..|es| - 1]) && MayFollow(BlocksOf(es[..|es| - 1]), es[|es| - 1]))
  }

  /** For block `i` the accumulators hold exactly what the events spell. */
  predicate AgreeAt(b: Blocks, em: seq<Emission>, i: nat) {
    && (i in b.Indices() ==> i < TWO_POW_32)
    && match StartOf(em, i)
       case None => i !in b.Indices() && forall kind: Kind :: Read(em, kind, i) == ""
       case Some(TextBlockStart(_)) =>
         i in b.text && i !in b.tools && i !in b.thinking && b.text[i] == Read(em, TextKind, i)
       case Some(ToolCallStart(_, id, name)) =>
         i !in b.text && i in b.tools && i !in b.thinking && b.tools[i] == ToolBlock(id, name, Read(em, ArgsKind, i))
       case Some(ThinkingBlockStart(_)) =>
         && i !in b.text && i !in b.tools && i in b.thinking
         && b.thinking[i] == ThinkingBlock(Read(em, ThoughtKind, i), Read(em, SignatureKind, i))
       case Some(_) => false
  }

  lemma ReadOneMore(em: seq<Emission>, e: Emission, i: nat)
    ensures forall kind: Kind :: Read(em + [e], kind, i) == Read(em, kind, i) + Chunk(e, kind, i)
    ensures StartOf(em + [e], i) == if IsStart(e) && e.index == i then Some(e) else StartOf(em, i)
  {
    assert (em + [e])[..|em|] == em;
  }

  lemma OtherBlockAgrees(b: Blocks, em: seq<Emission>, b': Blocks, e: Emission, i: nat)
    requires AgreeAt(b, em, i) && e.index != i
    requires i in b'.text <==> i in b.text
    requires i in b'.tools <==> i in b.tools
    requires i in b'.thinking <==> i in b.thinking
    requires i in b.text ==> b'.text[i] == b.text[i]
    requires i in b.tools ==> b'.tools[i] == b.tools[i]
    requires i in b.thinking ==> b'.thinking[i] == b.thinking[i]
    ensures AgreeAt(b', em + [e], i)
  {
    ReadOneMore(em, e, i);
  }

  lemma StartAgrees(b: Blocks, em: seq<Emission>, k: nat, id: string, name: string)
    requires AgreeAt(b, em, k) && k < TWO_POW_32 && k !in b.Indices()
    ensures AgreeAt(FoldBlocks(b, BlockStart(k, TextStart)), em + [TextBlockStart(k)], k)
    ensures AgreeAt(FoldBlocks(b, BlockStart(k, ToolStart(id, name))), em + [ToolCallStart(k, id, name)], k)
    ensures AgreeAt(FoldBlocks(b, BlockStart(k, ThinkingStart)), em + [ThinkingBlockStart(k)], k)
  {
    ReadOneMore(em, TextBlockStart(k), k);
    ReadOneMore(em, ToolCallStart(k, id, name), k);
    ReadOneMore(em, ThinkingBlockStart(k), k);
  }

  lemma TextAgrees(b: Blocks, em: seq<Emission>, k: nat, t: string)
    requires AgreeAt(b, em, k) && k in b.text
    ensures AgreeAt(FoldBlocks(b, BlockDelta(k, TextDelta(t))), em + [TextChunk(k, t)], k)
  {
    ReadOneMore(em, TextChunk(k, t), k);
  }

  lemma ArgsAgree(b: Blocks, em: seq<Emission>, k: nat, j: string)
    requires AgreeAt(b, em, k) && k in b.tools
    ensures AgreeAt(FoldBlocks(b, BlockDelta(k, JsonDelta(j))), em + [ToolCallInputDelta(k, b.tools[k].id, j)], k)
  {
    ReadOneMore(em, ToolCallInputDelta(k, b.tools[k].id, j), k);
  }

  lemma ThoughtAgrees(b: Blocks, em: seq<Emission>, k: nat, t: string)
    requires AgreeAt(b, em, k) && k in b.thinking
    ensures AgreeAt(FoldBlocks(b, BlockDelta(k, ThinkingDelta(t))), em + [ThinkingChunk(k, t)], k)
    ensures AgreeAt(FoldBlocks(b, BlockDelta(k, SignatureDelta(t))), em + [SignatureChunk(k, t)], k)
  {
    ReadOneMore(em, ThinkingChunk(k, t), k);
    ReadOneMore(em, SignatureChunk(k, t), k);
  }

  lemma StepAgrees(b: Blocks, em: seq<Emission>, e: StreamEvent, i: nat)
    requires AgreeAt(b, em, i) && MayFollow(b, e)
    requires (e.BlockDelta? || e.BlockStop?) ==> e.index < TWO_POW_32
    ensures AgreeAt(FoldBlocks(b, e), em + EmissionFor(b, e), i)
  {
    var out := EmissionFor(b, e);
    if out == [] {
      assert em + out == em;
    } else {
      assert e.index % TWO_POW_32 == e.index;
      if e.index != i {
        OtherBlockAgrees(b, em, FoldBlocks(b, e), out[0], i);
        assert out == [out[0]];
      } else {
        match e
        case BlockStart(k, TextStart) => StartAgrees(b, em, k, "", "");
        case BlockStart(k, ToolStart(id, name)) => StartAgrees(b, em, k, id, name);
        case BlockStart(k, ThinkingStart) => StartAgrees(b, em, k, "", "");
        case BlockDelta(k, TextDelta(t)) => TextAgrees(b, em, k, t);
        case BlockDelta(k, JsonDelta(j)) => ArgsAgree(b, em, k, j);
        case BlockDelta(k, ThinkingDelta(t)) => ThoughtAgrees(b, em, k, t);
        case BlockDelta(k, SignatureDelta(g)) => ThoughtAgrees(b, em, k, g);
        case BlockStop(k) => ReadOneMore(em, ContentBlockStop(k), k);
      }
    }
  }

  /** Over a whole well-formed stream the two views agree on every block. */
  lemma {:induction false} ViewsAgree(es: seq<StreamEvent>)
    requires WellFormed(es)
    ensures forall i: nat :: AgreeAt(BlocksOf(es), Emissions(es), i)
  {
    if es != [] {
      var before, e := es[..|es| - 1], es[|es| - 1];
      ViewsAgree(before);
      var b, em := BlocksOf(before), Emissions(before);
      if e.BlockDelta? || e.BlockStop? { assert AgreeAt(b, em, e.index); }
      forall i: nat ensures AgreeAt(BlocksOf(es), Emissions(es), i) {
        assert AgreeAt(b, em, i);
        StepAgrees(b, em, e, i);
      }
    }
  }

  /** So the parts assembled and the parts read off the events are the same, block by block. */
  lemma PartsAgree(es: seq<StreamEvent>, i: nat, parse: Parser, keep: bool)
    requires WellFormed(es)
    ensures PartAt(BlocksOf(es), i, parse, keep) == PartRead(Emissions(es), i, parse, keep)
    ensures i in BlocksOf(es).Indices() <==> StartOf(Emissions(es), i).Some?
  {
    ViewsAgree(es);
    assert AgreeAt(BlocksOf(es), Emissions(es), i);
  }

  function Append(a: Result<seq<Part>, LlmError>, b: Result<seq<Part>, LlmError>): Result<seq<Part>, LlmError> {
    if a.Err? then a else if b.Err? then b else Ok(a.value + b.value)
  }

  /** The parts of the blocks at `at`, in that order, or the first error. */
  function Assemble(b: Blocks, at: seq<nat>, parse: Parser, keep: bool): Result<seq<Part>, LlmError> {
    if at == [] then Ok([]) else Append(Assemble(b, at[..|at| - 1], parse, keep), PartAt(b, at[|at| - 1], parse, keep))
  }

  function ReadAll(em: seq<Emission>, at: seq<nat>, parse: Parser, keep: bool): Result<seq<Part>, LlmError> {
    if at == [] then Ok([]) else Append(ReadAll(em, at[..|at| - 1], parse, keep), PartRead(em, at[|at| - 1], parse, keep))
  }

  predicate Ascending(at: seq<nat>) {
    forall i, j | 0 <= i < j < |at| :: at[i] < at[j]
  }

  lemma {:induction false} AssembledAsRead(es: seq<StreamEvent>, at: seq<nat>, parse: Parser, keep: bool)
    requires WellFormed(es)
    ensures Assemble(BlocksOf(es), at, parse, keep) == ReadAll(Emissions(es), at, parse, keep)
  {
    if at != [] {
      AssembledAsRead(es, at[..|at| - 1], parse, keep);
      PartsAgree(es, at[|at| - 1], parse, keep);
    }
  }

  /** The parts are what the events spell, block by block in ascending order of index. */
  ghost predicate SpelledBy(parts: seq<Part>, em: seq<Emission>, parse: Parser, keep: bool) {
    exists at: seq<nat> ::
      && Ascending(at) && (forall i: nat :: i in at <==> StartOf(em, i).Some?)
      && ReadAll(em, at, parse, keep) == Ok(parts)
  }

  // ---- Attempts.

  /** An event that is emitted even when its block was never opened. */
  predicate IsLoose(e: StreamEvent) {
    (e.BlockDelta? && !e.delta.JsonDelta?) || e.BlockStop?
  }

  predicate NothingLoose(es: seq<StreamEvent>) {
    forall i | 0 <= i < |es| :: !IsLoose(es[i])
  }

  lemma NothingLooseUnfold(es: seq<StreamEvent>)
    requires es != []
    ensures NothingLoose(es) <==> NothingLoose(es[..|es| - 1]) && !IsLoose(es[|es| - 1])
  {
    var before := es[..|es| - 1];
    assert forall i | 0 <= i < |before| :: before[i] == es[i];
    if NothingLoose(before) && !IsLoose(es[|es| - 1]) {
      forall i | 0 <= i < |es| ensures !IsLoose(es[i]) {
        if i < |before| { assert !IsLoose(before[i]); }
      }
    }
  }

  lemma StartOpens(b: Blocks, i: nat, start: Start)
    requires !start.OtherStart?
    ensures !FoldBlocks(b, BlockStart(i, start)).IsEmpty()
  {
    var after := FoldBlocks(b, BlockStart(i, start));
    assert i in after.text || i in after.tools || i in after.thinking;
  }

  lemma NothingElseOpens(b: Blocks, e: StreamEvent)
    requires e.BlockStart? ==> e.start.OtherStart?
    ensures FoldBlocks(b, e).IsEmpty() <==> b.IsEmpty()
    ensures b.IsEmpty() ==> (EmissionFor(b, e) == [] <==> !IsLoose(e))
  {
    var after := FoldBlocks(b, e);
    assert after.text.Keys == b.text.Keys && after.tools.Keys == b.tools.Keys && after.thinking.Keys == b.thinking.Keys;
    assert after.IsEmpty() <==> after.Indices() == {};
    assert b.IsEmpty() <==> b.Indices() == {};
  }

  lemma EmptyBefore(b: Blocks, e: StreamEvent)
    requires FoldBlocks(b, e).IsEmpty()
    ensures b.IsEmpty() && (EmissionFor(b, e) == [] <==> !IsLoose(e))
  {
    if e.BlockStart? && !e.start.OtherStart? {
      StartOpens(b, e.index, e.start);
    } else {
      NothingElseOpens(b, e);
    }
  }

  /** While no block was ever opened, nothing was emitted exactly when no event was loose. */
  lemma {:induction false} SilentExactlyWhenNothingLoose(es: seq<StreamEvent>)
    requires BlocksOf(es).IsEmpty()
    ensures Emissions(es) == [] <==> NothingLoose(es)
  {
    if es != [] {
      EmptyBefore(BlocksOf(es[..|es| - 1]), es[|es| - 1]);
      SilentExactlyWhenNothingLoose(es[..|es| - 1]);
      NothingLooseUnfold(es);
    }
  }

  /** A well-formed stream that opened no block has nothing loose in it. */
  lemma {:induction false} WellFormedIsNotLoose(es: seq<StreamEvent>)
    requires WellFormed(es) && BlocksOf(es).IsEmpty()
    ensures NothingLoose(es)
  {
    if es != [] {
      EmptyBefore(BlocksOf(es[..|es| - 1]), es[|es| - 1]);
      WellFormedIsNotLoose(es[..|es| - 1]);
      NothingLooseUnfold(es);
    }
  }

  /** What an attempt consumes of its stream: every event before the first failure. */
  function Events(stream: seq<Item>): (es: seq<StreamEvent>)
    ensures |es| <= |stream| && (|es| < |stream| ==> stream[|es|].Failure?)
    ensures forall k | 0 <= k < |es| :: stream[k] == Event(es[k])
  {
    if stream == [] || stream[0].Failure? then [] else [stream[0].event] + Events(stream[1..])
  }

  datatype End = Finished | Retry(error: LlmError) | Fatal(error: LlmError)

  /** How an attempt ends, if the sink takes everything. A retry takes a failure before any block was opened. */
  function EndOf(stream: seq<Item>): End {
    var es := Events(stream);
    if |es| == |stream| then Finished
    else if stream[|es|].retryable && BlocksOf(es).IsEmpty() then Retry(stream[|es|].error)
    else Fatal(stream[|es|].error)
  }

  lemma FoldNext(es: seq<StreamEvent>, i: nat)
    requires i < |es|
    ensures BlocksOf(es[..i + 1]) == FoldBlocks(BlocksOf(es[..i]), es[i])
    ensures MeterOf(es[..i + 1]) == FoldMeter(MeterOf(es[..i]), es[i])
    ensures Emissions(es[..i + 1]) == Emissions(es[..i]) + EmissionFor(BlocksOf(es[..i]), es[i])
  {
    assert es[..i + 1][..i] == es[..i];
  }

  lemma TerminalNext(es: seq<StreamEvent>, i: nat)
    requires i < |es|
    ensures HasTerminal(es[..i + 1]) <==> HasTerminal(es[..i]) || IsTerminal(es[i])
  {
    var before, more := es[..i], es[..i + 1];
    assert forall k | 0 <= k < i :: more[k] == before[k];
    assert more[i] == es[i];
    if HasTerminal(before) {
      var k :| 0 <= k < i && IsTerminal(before[k]);
      assert IsTerminal(more[k]);
    }
  }

  /** One attempt; `refused` says that the sink refused an event. */
  method RunAttempt(stream: seq<Item>)
    returns (end: End, blocks: Blocks, meter: Meter, emitted: seq<Emission>, saw: bool, refused: bool)
    ensures refused ==> end == Fatal(EventSink)
    ensures !refused ==> end == EndOf(stream)
    ensures !refused ==> blocks == BlocksOf(Events(stream)) && meter == MeterOf(Events(stream))
    ensures !refused ==> emitted == Emissions(Events(stream)) && (saw <==> HasTerminal(Events(stream)))
  {
    ghost var all := Events(stream);
    blocks, meter, emitted, saw, refused := NO_BLOCKS, FRESH_METER, [], false, false;
    for i := 0 to |stream|
      invariant !refused && i <= |all|
      invariant blocks == BlocksOf(all[..i]) && meter == MeterOf(all[..i]) && emitted == Emissions(all[..i])
      invariant saw <==> HasTerminal(all[..i])
    {
      if stream[i].Failure? {
        assert i == |all| && all[..i] == all;
        end := if stream[i].retryable && blocks.IsEmpty() then Retry(stream[i].error) else Fatal(stream[i].error);
        return;
      }
      var e := stream[i].event;
      assert i < |all| && all[i] == e;
      FoldNext(all, i);
      TerminalNext(all, i);
      var out := EmissionFor(blocks, e);
      blocks, meter := FoldBlocks(blocks, e), FoldMeter(meter, e);
      saw := saw || IsTerminal(e);
      if out != [] {
        var accepted: bool := *;
        if !accepted {
          return Fatal(EventSink), blocks, meter, emitted, saw, true;
        }
      }
      emitted := emitted + out;
    }
    assert all[..|stream|] == all;
    end := Finished;
  }

  /** `sort_unstable` and `dedup` over the indices. */
  method SortedIndices(s: set<nat>) returns (at: seq<nat>)
    ensures Ascending(at) && forall i :: i in at <==> i in s
  {
    at := [];
    var rest := s;
    while rest != {}
      invariant rest <= s && Ascending(at)
      invariant forall i :: i in at <==> i in s && i !in rest
      invariant forall i, j | 0 <= i < |at| && j in rest :: at[i] < j
      decreases rest
    {
      var least := Least(rest);
      at, rest := at + [least], rest - {least};
    }
  }

  method Least(s: set<nat>) returns (least: nat)
    requires s != {}
    ensures least in s && forall i | i in s :: least <= i
  {
    least :| least in s;
    var rest := s - {least};
    while rest != {}
      invariant rest <= s && least in s && forall i | i in s && i !in rest :: least <= i
      decreases rest
    {
      var i :| i in rest;
      if i < least { least := i; }
      rest := rest - {i};
    }
  }

  lemma AssembleNext(b: Blocks, at: seq<nat>, i: nat, parse: Parser, keep: bool)
    requires i < |at|
    ensures Assemble(b, at[..i + 1], parse, keep) ==
            Append(Assemble(b, at[..i], parse, keep), PartAt(b, at[i], parse, keep))
  {
    assert at[..i + 1][..i] == at[..i];
  }

  lemma {:induction false} FirstErrorStands(b: Blocks, at: seq<nat>, i: nat, parse: Parser, keep: bool)
    requires i <= |at| && Assemble(b, at[..i], parse, keep).Err?
    ensures Assemble(b, at, parse, keep) == Assemble(b, at[..i], parse, keep)
  {
    if i == |at| {
      assert at[..i] == at;
    } else {
      assert at[..|at| - 1][..i] == at[..i];
      FirstErrorStands(b, at[..|at| - 1], i, parse, keep);
    }
  }

  /** Every tool block that will be assembled has arguments that parse. */
  ghost predicate Parseable(b: Blocks, parse: Parser) {
    forall i | i in b.tools && i !in b.text :: ToolInput(parse, b.tools[i].json).Some?
  }

  lemma {:induction false} AssemblesWhenParseable(b: Blocks, at: seq<nat>, parse: Parser, keep: bool)
    ensures Assemble(b, at, parse, keep).Ok? <==> forall i | i in at :: PartAt(b, i, parse, keep).Ok?
  {
    if at != [] {
      var before := at[..|at| - 1];
      AssemblesWhenParseable(b, before, parse, keep);
      assert at == before + [at[|at| - 1]];
      assert forall i :: i in at <==> i in before || i == at[|at| - 1];
    }
  }

  method AssembleParts(blocks: Blocks, parse: Parser, keep: bool)
    returns (r: Result<seq<Part>, LlmError>, at: seq<nat>)
    ensures Ascending(at) && forall i :: i in at <==> i in blocks.Indices()
    ensures r == Assemble(blocks, at, parse, keep)
  {
    var order := SortedIndices(blocks.Indices());
    at := order;
    var parts: seq<Part> := [];
    for i := 0 to |order|
      invariant Assemble(blocks, order[..i], parse, keep) == Ok(parts)
    {
      AssembleNext(blocks, order, i, parse, keep);
      var part := PartAt(blocks, order[i], parse, keep);
      if part.Err? {
        FirstErrorStands(blocks, order, i + 1, parse, keep);
        return Err(part.error), at;
      }
      parts := parts + part.value;
    }
    assert order[..|order|] == order;
    r := Ok(parts);
  }

  function UsageOf(m: Meter): Usage {
    Usage(m.input + Or(m.creation, 0) + Or(m.read, 0), m.output, m.creation, m.read)
  }

  /** How many attempts are abandoned before one is not. */
  function Retries(streams: seq<seq<Item>>): (n: nat)
    ensures n <= |streams| && forall k | 0 <= k < n :: EndOf(streams[k]).Retry?
    ensures n < |streams| ==> !EndOf(streams[n]).Retry?
  {
    if streams == [] || !EndOf(streams[0]).Retry? then 0 else 1 + Retries(streams[1..])
  }

  /** What the last of the attempts failed with. */
  function LastError(gone: seq<seq<Item>>): Option<LlmError> {
    if gone == [] then None
    else
      match EndOf(gone[|gone| - 1])
      case Finished => None
      case Retry(e) => Some(e)
      case Fatal(e) => Some(e)
  }

  function EmittedBy(gone: seq<seq<Item>>): seq<Emission> {
    if gone == [] then [] else EmittedBy(gone[..|gone| - 1]) + Emissions(Events(gone[|gone| - 1]))
  }

  ghost predicate AnyTerminal(gone: seq<seq<Item>>) {
    exists k | 0 <= k < |gone| :: Terminated(gone[k])
  }

  predicate IsQuiet(stream: seq<Item>) {
    NothingLoose(Events(stream))
  }

  ghost predicate AllQuiet(gone: seq<seq<Item>>) {
    forall k | 0 <= k < |gone| :: IsQuiet(gone[k])
  }

  lemma AllQuietUnfold(gone: seq<seq<Item>>)
    requires gone != []
    ensures AllQuiet(gone) <==> AllQuiet(gone[..|gone| - 1]) && IsQuiet(gone[|gone| - 1])
  {
    var before := gone[..|gone| - 1];
    assert forall k | 0 <= k < |before| :: before[k] == gone[k];
    if AllQuiet(before) && IsQuiet(gone[|before|]) {
      forall k | 0 <= k < |gone| ensures IsQuiet(gone[k]) {
        assert k < |before| ==> IsQuiet(before[k]);
      }
    }
  }

  lemma AbandonedAttemptIsSilent(stream: seq<Item>)
    requires EndOf(stream).Retry?
    ensures Emissions(Events(stream)) == [] <==> IsQuiet(stream)
  {
    SilentExactlyWhenNothingLoose(Events(stream));
  }

  /** Abandoned attempts emitted nothing at all exactly when nothing in them was loose. */
  lemma {:induction false} AbandonedAttemptsAreSilent(gone: seq<seq<Item>>)
    requires forall k | 0 <= k < |gone| :: EndOf(gone[k]).Retry?
    ensures EmittedBy(gone) == [] <==> AllQuiet(gone)
  {
    if gone != [] {
      AbandonedAttemptsAreSilent(gone[..|gone| - 1]);
      AbandonedAttemptIsSilent(gone[|gone| - 1]);
      AllQuietUnfold(gone);
    }
  }

  predicate Terminated(stream: seq<Item>) {
    HasTerminal(Events(stream))
  }

  lemma OneMoreAttempt(streams: seq<seq<Item>>, n: nat)
    requires n < |streams|
    ensures EmittedBy(streams[..n + 1]) == EmittedBy(streams[..n]) + Emissions(Events(streams[n]))
    ensures AnyTerminal(streams[..n + 1]) <==> AnyTerminal(streams[..n]) || Terminated(streams[n])
  {
    var before, more := streams[..n], streams[..n + 1];
    assert more[..n] == before && more[n] == streams[n];
    assert forall k | 0 <= k < n :: more[k] == before[k];
    if AnyTerminal(before) {
      var k :| 0 <= k < n && Terminated(before[k]);
      assert Terminated(more[k]);
    }
  }

  /** The attempt after the abandoned ones ran to the end of its stream. */
  ghost predicate RanOut(streams: seq<seq<Item>>) {
    var n := Retries(streams);
    n < |streams| && EndOf(streams[n]).Finished?
  }

  /** What that attempt consumed. */
  ghost function Final(streams: seq<seq<Item>>): seq<StreamEvent> {
    var n := Retries(streams);
    if n < |streams| then Events(streams[n]) else []
  }

  /** The attempts abandoned before it. */
  ghost function Gone(streams: seq<seq<Item>>): seq<seq<Item>> {
    streams[..Retries(streams)]
  }

  lemma GoneAreSilent(streams: seq<seq<Item>>)
    ensures EmittedBy(Gone(streams)) == [] <==> AllQuiet(Gone(streams))
  {
    AbandonedAttemptsAreSilent(Gone(streams));
  }

  /** The attempt after the abandoned ones failed for good, or there was none. */
  ghost predicate GaveUp(streams: seq<seq<Item>>, error: LlmError) {
    var n := Retries(streams);
    if n == |streams| then LastError(streams) == Some(error) else EndOf(streams[n]) == Fatal(error)
  }

  datatype Answer = Answer(blocks: Blocks, meter: Meter, saw: bool, lastError: Option<LlmError>)

  /** The retry loop: the answer is folded from the first attempt that was not abandoned. */
  method StreamWithRetry(streams: seq<seq<Item>>)
    returns (r: Result<Answer, LlmError>, emitted: seq<Emission>, refused: bool)
    requires |streams| == MAX_STREAM_RETRIES + 1
    ensures refused ==> r == Err(EventSink)
    ensures !refused ==> (r.Ok? <==> RanOut(streams)) && (r.Err? ==> GaveUp(streams, r.error))
    ensures r.Ok? ==>
              && emitted == EmittedBy(Gone(streams)) + Emissions(Final(streams))
              && r.value.blocks == BlocksOf(Final(streams)) && r.value.meter == MeterOf(Final(streams))
              && (r.value.saw <==> AnyTerminal(Gone(streams)) || HasTerminal(Final(streams)))
              && r.value.lastError == LastError(Gone(streams))
              && (EmittedBy(Gone(streams)) == [] <==> AllQuiet(Gone(streams)))
  {
    emitted, refused := [], false;
    var lastError: Option<LlmError>, sawTerminal := None, false;
    for attempt := 0 to |streams|
      invariant attempt <= Retries(streams) && !refused
      invariant emitted == EmittedBy(streams[..attempt]) && lastError == LastError(streams[..attempt])
      invariant sawTerminal <==> AnyTerminal(streams[..attempt])
    {
      var end, blocks, meter, em, saw;
      end, blocks, meter, em, saw, refused := RunAttempt(streams[attempt]);
      emitted, sawTerminal := emitted + em, sawTerminal || saw;
      if end.Fatal? {
        return Err(end.error), emitted, refused;
      }
      if end.Finished? {
        GoneAreSilent(streams);
        return Ok(Answer(blocks, meter, sawTerminal, lastError)), emitted, refused;
      }
      OneMoreAttempt(streams, attempt);
      lastError := Some(end.error);
      assert attempt < Retries(streams);
    }
    assert streams[..|streams|] == streams;
    r := Err(lastError.value);
  }

  /** What an answer takes, once a stream has run out. */
  ghost predicate IsAnswer(gone: seq<seq<Item>>, last: seq<StreamEvent>, parse: Parser) {
    && (gone != [] ==> !BlocksOf(last).IsEmpty())
    && (AnyTerminal(gone) || HasTerminal(last))
    && Parseable(BlocksOf(last), parse)
  }

  /** The tool block assembled first among those whose arguments do not parse. */
  ghost predicate FirstUnparseable(b: Blocks, parse: Parser, i: nat) {
    && i in b.tools && i !in b.text && ToolInput(parse, b.tools[i].json).None?
    && forall j | j in b.tools && j !in b.text && ToolInput(parse, b.tools[j].json).None? :: i <= j
  }

  /**
    Why a stream that ran out is no answer: it brought nothing or did not terminate, which is
    blamed on the latest retry if there was one; or some arguments do not parse.
   */
  ghost predicate IsNoAnswer(answer: Answer, parse: Parser, error: LlmError) {
    var b, lastError := answer.blocks, answer.lastError;
    if b.IsEmpty() && lastError.Some? then error == lastError.value
    else if !answer.saw then error == if lastError.Some? then lastError.value else Dropped
    else exists i :: FirstUnparseable(b, parse, i) && error == Unparseable(b.tools[i].name)
  }

  /** What the attempt that ran out leaves to be assessed. */
  ghost function AnswerOf(gone: seq<seq<Item>>, last: seq<StreamEvent>): Answer {
    Answer(BlocksOf(last), MeterOf(last), AnyTerminal(gone) || HasTerminal(last), LastError(gone))
  }

  /** The first error met in ascending order is that of the least unparseable block. */
  lemma {:induction false} ErrorIsTheFirst(b: Blocks, at: seq<nat>, parse: Parser, keep: bool) returns (n: nat)
    requires Assemble(b, at, parse, keep).Err?
    ensures n < |at| && PartAt(b, at[n], parse, keep) == Err(Assemble(b, at, parse, keep).error)
    ensures forall k | 0 <= k < n :: PartAt(b, at[k], parse, keep).Ok?
  {
    var init := at[..|at| - 1];
    if Assemble(b, init, parse, keep).Err? {
      n := ErrorIsTheFirst(b, init, parse, keep);
      assert forall k | 0 <= k < |init| :: init[k] == at[k];
    } else {
      n := |at| - 1;
      AssemblesWhenParseable(b, init, parse, keep);
      forall k | 0 <= k < n ensures PartAt(b, at[k], parse, keep).Ok? { assert init[k] == at[k] && at[k] in init; }
    }
  }

  lemma BlameTheFirst(b: Blocks, at: seq<nat>, parse: Parser, keep: bool)
    requires Ascending(at) && (forall i :: i in at <==> i in b.Indices()) && Assemble(b, at, parse, keep).Err?
    ensures exists i :: FirstUnparseable(b, parse, i) && Assemble(b, at, parse, keep).error == Unparseable(b.tools[i].name)
  {
    var n := ErrorIsTheFirst(b, at, parse, keep);
    forall j | j in b.tools && j !in b.text && ToolInput(parse, b.tools[j].json).None? ensures at[n] <= j {
      assert j in b.Indices();
      var k :| 0 <= k < |at| && at[k] == j;
      assert PartAt(b, at[k], parse, keep).Err?;
    }
    assert FirstUnparseable(b, parse, at[n]);
  }

  /** Turn what was streamed into parts, if it is an answer. */
  method Assess(answer: Answer, parse: Parser, keep: bool) returns (r: Result<seq<Part>, LlmError>, at: seq<nat>)
    ensures r.Ok? <==> (answer.lastError.Some? ==> !answer.blocks.IsEmpty()) && answer.saw && Parseable(answer.blocks, parse)
    ensures r.Err? ==> IsNoAnswer(answer, parse, r.error)
    ensures r.Ok? ==> Ascending(at) && (forall i :: i in at <==> i in answer.blocks.Indices())
    ensures r.Ok? ==> Assemble(answer.blocks, at, parse, keep) == r
  {
    var Answer(blocks, _, sawTerminal, lastError) := answer;
    if blocks.IsEmpty() && lastError.Some? {
      return Err(lastError.value), [];
    }
    if !sawTerminal {
      return Err(if lastError.Some? then lastError.value else Dropped), [];
    }
    r, at := AssembleParts(blocks, parse, keep);
    AssemblesWhenParseable(blocks, at, parse, keep);
    EveryPartParses(blocks, parse, keep);
    if r.Err? { BlameTheFirst(blocks, at, parse, keep); }
  }

  lemma RetriesLeaveAnError(streams: seq<seq<Item>>)
    ensures LastError(Gone(streams)).Some? <==> Gone(streams) != []
  {
    if Gone(streams) != [] {
      assert EndOf(streams[Retries(streams) - 1]).Retry?;
    }
  }

  /**
    Stream with retry, then assemble. Unless the sink refuses an event, there is an answer
    exactly when an attempt ran out and what it streamed is one. For well-formed streams
    everything emitted comes from the attempt answered from, and spells the parts returned.
   */
  method Complete(streams: seq<seq<Item>>, parse: Parser, keep: bool)
    returns (r: Result<Response, LlmError>, emitted: seq<Emission>, refused: bool)
    requires |streams| == MAX_STREAM_RETRIES + 1
    ensures refused ==> r == Err(EventSink)
    ensures !refused ==> (r.Ok? <==> RanOut(streams) && IsAnswer(Gone(streams), Final(streams), parse))
    ensures r.Err? && !refused && !RanOut(streams) ==> GaveUp(streams, r.error)
    ensures r.Err? && !refused && RanOut(streams) ==> IsNoAnswer(AnswerOf(Gone(streams), Final(streams)), parse, r.error)
    ensures r.Ok? ==>
              && (emitted == Emissions(Final(streams)) <==> AllQuiet(Gone(streams)))
              && Tells(Final(streams), r.value.reason, r.value.usage)
    ensures r.Ok? && WellFormed(Final(streams)) && AllWellFormed(Gone(streams)) ==>
              emitted == Emissions(Final(streams)) && SpelledBy(r.value.parts, emitted, parse, keep)
  {
    var answer;
    answer, emitted, refused := StreamWithRetry(streams);
    if answer.Err? {
      return Err(answer.error), emitted, refused;
    }
    RetriesLeaveAnError(streams);
    var parts, at := Assess(answer.value, parse, keep);
    if parts.Err? {
      return Err(parts.error), emitted, refused;
    }
    StreamTells(Final(streams));
    r := Ok(Response(parts.value, answer.value.meter.reason, UsageOf(answer.value.meter)));
    EmptyPrefix(EmittedBy(Gone(streams)), Emissions(Final(streams)));
    if WellFormed(Final(streams)) && AllWellFormed(Gone(streams)) {
      WellFormedAttemptsAreQuiet(Gone(streams));
      PartsAreSpelled(Final(streams), at, parse, keep, parts.value);
    }
  }

  lemma EmptyPrefix(a: seq<Emission>, b: seq<Emission>)
    ensures a + b == b <==> a == []
  {
  }

  ghost predicate AllWellFormed(gone: seq<seq<Item>>) {
    forall k | 0 <= k < |gone| :: WellFormed(Events(gone[k]))
  }

  lemma WellFormedAttemptsAreQuiet(gone: seq<seq<Item>>)
    requires AllWellFormed(gone) && forall k | 0 <= k < |gone| :: EndOf(gone[k]).Retry?
    ensures AllQuiet(gone)
  {
    forall k | 0 <= k < |gone| ensures IsQuiet(gone[k]) {
      WellFormedIsNotLoose(Events(gone[k]));
    }
  }

  lemma EveryPartParses(b: Blocks, parse: Parser, keep: bool)
    ensures Parseable(b, parse) <==> forall i | i in b.Indices() :: PartAt(b, i, parse, keep).Ok?
  {
    if forall i | i in b.Indices() :: PartAt(b, i, parse, keep).Ok? {
      forall i | i in b.tools && i !in b.text ensures ToolInput(parse, b.tools[i].json).Some? {
        assert i in b.Indices();
        assert PartAt(b, i, parse, keep).Ok?;
      }
    }
  }

  lemma PartsAreSpelled(es: seq<StreamEvent>, at: seq<nat>, parse: Parser, keep: bool, parts: seq<Part>)
    requires WellFormed(es) && Ascending(at) && (forall i :: i in at <==> i in BlocksOf(es).Indices())
    requires Assemble(BlocksOf(es), at, parse, keep) == Ok(parts)
    ensures SpelledBy(parts, Emissions(es), parse, keep)
  {
    AssembledAsRead(es, at, parse, keep);
    forall i: nat ensures i in at <==> StartOf(Emissions(es), i).Some? {
      PartsAgree(es, i, parse, keep);
    }
  }

  /**
    A terminal event carries over: an attempt that stopped its message and then failed
    retryably makes an answer of the next one, which was cut off before any terminal event.
   */
  lemma TerminalCarriesOver(error: LlmError, parse: Parser, streams: seq<seq<Item>>)
    requires |streams| == MAX_STREAM_RETRIES + 1
    requires streams[0] == [Event(MessageStop), Failure(error, true)]
    requires streams[1] == [Event(BlockStart(0, TextStart))]
    ensures RanOut(streams) && !HasTerminal(Final(streams)) && IsAnswer(Gone(streams), Final(streams), parse)
  {
    assert Events(streams[0]) == [MessageStop] by { assert streams[0][1..] == [Failure(error, true)]; }
    assert Events(streams[1]) == [BlockStart(0, TextStart)] by { assert streams[1][1..] == []; }
    OneEvent(MessageStop);
    OneEvent(BlockStart(0, TextStart));
    assert EndOf(streams[0]) == Retry(error) && EndOf(streams[1]) == Finished;
    assert Retries(streams) == 1;
    assert Gone(streams) == [streams[0]];
    assert IsTerminal(Events(streams[0])[0]) && Terminated(Gone(streams)[0]);
    assert 0 in BlocksOf(Final(streams)).text;
  }

  lemma OneEvent(e: StreamEvent)
    ensures BlocksOf([e]) == FoldBlocks(NO_BLOCKS, e)
  {
    assert [e][..0] == [];
  }
}
