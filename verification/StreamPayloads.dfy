/** Payloads as Anthropic upstreams send them, with members the translator does not read, and a stream on which
    streaming and batch translation differ. */
module StreamPayloads {
  import opened Json
  import opened Responses
  import opened StreamOpenAI
  import opened StreamRefinement

  // ---------- Payloads as upstreams send them ----------

  /** Members of a payload that the translator reads, outside and inside its nested object. */
  const OUTER: set<string> := {"index", "delta", "content_block", "message", "usage"}
  const INNER: set<string> :=
    {"type", "id", "name", "text", "thinking", "input", "partial_json", "stop_reason", "usage"}

  /** Any further members of a payload, of its nested object, and of its usage. */
  datatype Extra = Extra(outer: map<string, Value>, inner: map<string, Value>, usage: map<string, Value>) {
    predicate Unread() {
      outer.Keys !! OUTER && inner.Keys !! INNER && usage.Keys !! {"input_tokens", "output_tokens"}
    }
  }

  function UsageFields(input: Option<int>, output: Option<int>, more: map<string, Value>): map<string, Value> {
    more
    + (if input.Some? then map["input_tokens" := Int(input.value)] else map[])
    + (if output.Some? then map["output_tokens" := Int(output.value)] else map[])
  }

  function BlockPayload(index: nat, block: map<string, Value>, x: Extra): Value {
    Obj(x.outer + map["index" := Int(index), "content_block" := Obj(x.inner + block)])
  }

  function PiecePayload(index: nat, delta: map<string, Value>, x: Extra): Value {
    Obj(x.outer + map["index" := Int(index), "delta" := Obj(x.inner + delta)])
  }

  /** The payload of an event with any further members, as there are identifiers, models and stop sequences. */
  function Payload(e: Event, blocks: nat, x: Extra): Value {
    match e
    case MessageStart(u) =>
      Obj(x.outer
          + map["message" := Obj(x.inner + map["usage" := Obj(UsageFields(Some(u.input), Some(u.output), x.usage))])])
    case StartText => BlockPayload(blocks, map["type" := Str("text"), "text" := Str("")], x)
    case StartThinking => BlockPayload(blocks, map["type" := Str("thinking"), "thinking" := Str("")], x)
    case StartTool(id, name) =>
      BlockPayload(blocks,
                   map["type" := Str("tool_use"), "id" := Str(id), "name" := Str(name), "input" := Obj(map[])], x)
    case StartOther(tag) => BlockPayload(blocks, map["type" := Str(tag)], x)
    case TextPiece(i, text) => PiecePayload(i, map["type" := Str("text_delta"), "text" := Str(text)], x)
    case ThinkingPiece(i, thinking) =>
      PiecePayload(i, map["type" := Str("thinking_delta"), "thinking" := Str(thinking)], x)
    case JsonPiece(i, json) => PiecePayload(i, map["type" := Str("input_json_delta"), "partial_json" := Str(json)], x)
    case OtherPiece(i, kind) => PiecePayload(i, map["type" := Str(kind)], x)
    case Closure(stopReason, input, output) =>
      Obj(x.outer
          + map["delta" :=
                  Obj(x.inner + map["stop_reason" := if stopReason.Some? then Str(stopReason.value) else Null]),
                "usage" := Obj(UsageFields(input, output, x.usage))])
    case Notice(_, body) => body
  }

  lemma UsageDecodes(fields: map<string, Value>, input: Option<int>, output: Option<int>, x: Extra)
    requires x.Unread() && "usage" in fields && fields["usage"] == Obj(UsageFields(input, output, x.usage))
    ensures DecodeUsage(fields) == Some(Some(Usage(if input.Some? then input.value else 0,
                                                   if output.Some? then output.value else 0)))
  {
  }

  lemma StartDecodes(index: nat, block: map<string, Value>, x: Extra)
    requires x.Unread() && block.Keys <= INNER
    requires StringField(block, "type").Some? && StringField(block, "id").Some? && StringField(block, "name").Some?
    ensures var v := BlockPayload(index, block, x);
            && DecodeBlockStart(v)
               == Some(BlockStart(index, StringField(block, "type").value, StringField(block, "id").value,
                                  StringField(block, "name").value))
            && BlockFields(v) == Some(x.inner + block)
  {
    var v := BlockPayload(index, block, x);
    assert v.fields["index"] == Int(index) && v.fields["content_block"] == Obj(x.inner + block);
    SameField(x.inner, block, "type");
    SameField(x.inner, block, "id");
    SameField(x.inner, block, "name");
  }

  lemma SameField(more: map<string, Value>, fields: map<string, Value>, key: string)
    requires key !in more
    ensures StringField(more + fields, key) == StringField(fields, key)
  {
  }

  lemma PieceDecodes(index: nat, delta: map<string, Value>, x: Extra)
    requires x.Unread() && StringField(delta, "type").Some? && StringField(delta, "text").Some?
    requires StringField(delta, "thinking").Some? && StringField(delta, "partial_json").Some?
    ensures DecodeBlockDelta(PiecePayload(index, delta, x))
         == Some(BlockDelta(index, StringField(delta, "type").value, StringField(delta, "text").value,
                            StringField(delta, "thinking").value, StringField(delta, "partial_json").value))
  {
    var v := PiecePayload(index, delta, x);
    assert v.fields["index"] == Int(index) && v.fields["delta"] == Obj(x.inner + delta);
    SameField(x.inner, delta, "type");
    SameField(x.inner, delta, "text");
    SameField(x.inner, delta, "thinking");
    SameField(x.inner, delta, "partial_json");
  }

  lemma StartSays(e: Event, blocks: nat, x: Extra)
    requires x.Unread() && (e.StartText? || e.StartThinking? || e.StartTool? || e.StartOther?)
    ensures Says(Payload(e, blocks, x), e, blocks)
  {
    match e {
      case StartText =>
        StartDecodes(blocks, map["type" := Str("text"), "text" := Str("")], x);
      case StartThinking =>
        StartDecodes(blocks, map["type" := Str("thinking"), "thinking" := Str("")], x);
      case StartTool(id, name) =>
        StartDecodes(blocks,
                     map["type" := Str("tool_use"), "id" := Str(id), "name" := Str(name), "input" := Obj(map[])], x);
      case StartOther(tag) =>
        StartDecodes(blocks, map["type" := Str(tag)], x);
    }
  }

  lemma PieceSays(e: Event, blocks: nat, x: Extra)
    requires x.Unread() && (e.TextPiece? || e.ThinkingPiece? || e.JsonPiece? || e.OtherPiece?)
    ensures Says(Payload(e, blocks, x), e, blocks)
  {
    match e {
      case TextPiece(i, text) => PieceDecodes(i, map["type" := Str("text_delta"), "text" := Str(text)], x);
      case ThinkingPiece(i, t) => PieceDecodes(i, map["type" := Str("thinking_delta"), "thinking" := Str(t)], x);
      case JsonPiece(i, json) =>
        PieceDecodes(i, map["type" := Str("input_json_delta"), "partial_json" := Str(json)], x);
      case OtherPiece(i, kind) => PieceDecodes(i, map["type" := Str(kind)], x);
    }
  }

  lemma ClosureSays(e: Event, blocks: nat, x: Extra)
    requires x.Unread() && e.Closure?
    ensures Says(Payload(e, blocks, x), e, blocks)
  {
    var top := Payload(e, blocks, x).fields;
    var delta := top["delta"].fields;
    UsageDecodes(top, e.input, e.output, x);
    assert top["delta"] == Obj(delta) && StructField(top, "delta") == Some(delta);
    assert StringField(delta, "stop_reason") == Some(Or(e.stopReason, ""));
  }

  /** Further members never matter: with any of them, every event's payload says the event. */
  lemma PayloadSays(e: Event, blocks: nat, x: Extra)
    requires x.Unread()
    ensures Says(Payload(e, blocks, x), e, blocks)
  {
    match e {
      case MessageStart(u) =>
        var top := Payload(e, blocks, x).fields;
        UsageDecodes(top["message"].fields, Some(u.input), Some(u.output), x);
      case StartText | StartThinking | StartTool(_, _) | StartOther(_) => StartSays(e, blocks, x);
      case TextPiece(_, _) | ThinkingPiece(_, _) | JsonPiece(_, _) | OtherPiece(_, _) => PieceSays(e, blocks, x);
      case Closure(_, _, _) => ClosureSays(e, blocks, x);
      case Notice(_, _) =>
    }
  }

  // ---------- The two translations do differ ----------

  const PLAIN := Extra(map[], map[], map[])

  function OneTool(u: Usage, id: string, name: string): seq<Frame> {
    [Frame(MessageStart(u), "m", false), Frame(StartTool(id, name), "t", false)]
  }

  /** A reader of JSON that knows the two payloads of that stream, and `{}`. */
  function Reader(u: Usage, id: string, name: string): Codec {
    Codec((s: string) =>
            if s == "m" then Some(Payload(MessageStart(u), 0, PLAIN))
            else if s == "t" then Some(Payload(StartTool(id, name), 0, PLAIN))
            else if s == "{}" then Some(Obj(map[])) else None,
          (s: string) => s)
  }

  lemma ReaderReads(u: Usage, id: string, name: string)
    ensures var c := Reader(u, id, name);
            && c.parse("m") == Some(Payload(MessageStart(u), 0, PLAIN))
            && c.parse("t") == Some(Payload(StartTool(id, name), 0, PLAIN))
            && c.Lawful()
  {
    assert "t"[0] != "m"[0] && |"{}"| == 2;
  }

  lemma CarriedBy(parse: string -> Option<Value>, e: Event, payload: string, blocks: nat)
    requires parse(payload) == Some(Payload(e, blocks, PLAIN)) && |payload| == 1 && 'a' <= payload[0] <= 'z'
    requires Ends(Name(e))
    ensures Carries(parse, Frame(e, payload, false), blocks)
  {
    PayloadSays(e, blocks, PLAIN);
  }

  lemma OneToolCarried(u: Usage, id: string, name: string)
    ensures var parse, frames := Reader(u, id, name).parse, OneTool(u, id, name);
            Carries(parse, frames[0], 0) && Carries(parse, frames[1], 0)
  {
    ReaderReads(u, id, name);
    CarriedBy(Reader(u, id, name).parse, MessageStart(u), "m", 0);
    CarriedBy(Reader(u, id, name).parse, StartTool(id, name), "t", 0);
  }

  lemma OneFold(parse: string -> Option<Value>, m: AnthropicMessage, f: Frame)
    requires Carries(parse, f, |m.content|) && Allowed(m, f.event)
    ensures Conforms(parse, m, [f]) && FoldAll(parse, m, [f]) == Fold(m, f.event)
  {
    assert [f][1..] == [];
  }

  lemma TwoFrames(parse: string -> Option<Value>, u: Usage, f: Frame, g: Frame)
    requires f.event == MessageStart(u) && u.input >= 0 && u.output >= 0 && g.event.StartTool?
    requires Carries(parse, f, 0) && Carries(parse, g, 0)
    ensures Conforming(parse, [f, g])
    ensures Spelled(parse, [f, g]).content == [ToolUse(g.event.id, g.event.name, "")]
  {
    assert [f, g][1..] == [g];
    OneFold(parse, Opening(u), g);
  }

  /** A tool that is called without any input: the stream ends with empty arguments, the batch reply says `{}`. */
  lemma EmptyToolInputDiffers(u: Usage, id: string, name: string)
    requires u.input >= 0 && u.output >= 0
    ensures var c, frames := Reader(u, id, name), OneTool(u, id, name);
            && c.Lawful() && Conforming(c.parse, frames)
            && Accumulate(NOTHING, Transcript(c.parse, AllLines(frames) + (StopLines("{}", false) + []))).toolCalls
               == [ToolCall(id, name, "")]
            && ToOpenAI(c, Spelled(c.parse, frames)).toolCalls == [ToolCall(id, name, "{}")]
  {
    var c, frames := Reader(u, id, name), OneTool(u, id, name);
    ReaderReads(u, id, name);
    OneToolCarried(u, id, name);
    TwoFrames(c.parse, u, frames[0], frames[1]);
    StreamRefinesBatch(c, frames, "{}", false, []);
    OneCall(c, ToolUse(id, name, ""));
  }

  lemma OneCall(c: Codec, b: Block)
    requires b.ToolUse?
    ensures RawCalls([b]) == [ToolCall(b.id, b.name, b.input)]
    ensures Calls(c, [b]) == [ToolCall(b.id, b.name, Arguments(c, b.input))]
  {
    assert [b][..0] == [] && RawCalls([]) == [] && Calls(c, []) == [];
  }
}
