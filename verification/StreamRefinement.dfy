/** The streaming translation means the same as the batch translation of the message that the stream spells out. */
module StreamRefinement {
  import opened Json
  import opened Responses
  import opened StreamOpenAI

  // ---------- Anthropic events and the message they fold to ----------

  datatype Event =
    | MessageStart(usage: Usage)
    | StartText
    | StartThinking
    | StartTool(id: string, name: string)
    | StartOther(tag: string)
    | TextPiece(index: nat, text: string)
    | ThinkingPiece(index: nat, thinking: string)
    | JsonPiece(index: nat, json: string)
    | OtherPiece(index: nat, kind: string)
    | Closure(stopReason: Option<string>, input: Option<int>, output: Option<int>)
    | Notice(name: string, body: Value)

  function Name(e: Event): string {
    match e
    case MessageStart(_) => "message_start"
    case StartText | StartThinking | StartTool(_, _) | StartOther(_) => "content_block_start"
    case TextPiece(_, _) | ThinkingPiece(_, _) | JsonPiece(_, _) | OtherPiece(_, _) => "content_block_delta"
    case Closure(_, _, _) => "message_delta"
    case Notice(name, _) => name
  }

  /** The members of the block that a `content_block_start` payload opens. */
  function BlockFields(v: Value): Option<map<string, Value>> {
    var top :- Struct(v);
    StructField(top, "content_block")
  }

  predicate Opens(v: Value, blocks: nat, kind: string) {
    DecodeBlockStart(v).Some? && DecodeBlockStart(v).value.index == blocks && DecodeBlockStart(v).value.kind == kind
  }

  /** A text block starts empty, and so does a thinking block. */
  predicate StartsEmpty(v: Value, key: string) {
    BlockFields(v).Some? && StringField(BlockFields(v).value, key) == Some("")
  }

  predicate StartsWithoutInput(v: Value) {
    BlockFields(v).Some?
    && ("input" in BlockFields(v).value ==> BlockFields(v).value["input"] in {Null, Obj(map[])})
  }

  predicate Counts(usage: Option<Usage>, input: Option<int>, output: Option<int>) {
    match usage
    case None => input == None && output == None
    case Some(u) =>
      u.input == (if input.Some? then input.value else 0) && u.output == if output.Some? then output.value else 0
  }

  /** The payload says what the event says, whatever other members it has. A block start carries the index of the block,
      the number of blocks before it. */
  predicate Says(v: Value, e: Event, blocks: nat) {
    match e
    case MessageStart(u) => DecodeMessageStart(v) == Some(Some(u))
    case StartText => Opens(v, blocks, "text") && StartsEmpty(v, "text")
    case StartThinking => Opens(v, blocks, "thinking") && StartsEmpty(v, "thinking")
    case StartTool(id, name) =>
      DecodeBlockStart(v) == Some(BlockStart(blocks, "tool_use", id, name)) && StartsWithoutInput(v)
    case StartOther(tag) => Opens(v, blocks, tag)
    case TextPiece(i, text) => HasPiece(v, i, "text_delta") && DecodeBlockDelta(v).value.text == text
    case ThinkingPiece(i, thinking) =>
      HasPiece(v, i, "thinking_delta") && DecodeBlockDelta(v).value.thinking == thinking
    case JsonPiece(i, json) => HasPiece(v, i, "input_json_delta") && DecodeBlockDelta(v).value.partialJson == json
    case OtherPiece(i, kind) => HasPiece(v, i, kind)
    case Closure(stopReason, input, output) =>
      && DecodeMessageDelta(v).Some? && DecodeMessageDelta(v).value.stopReason == Or(stopReason, "")
      && Counts(DecodeMessageDelta(v).value.usage, input, output)
    case Notice(_, body) => v == body
  }

  predicate HasPiece(v: Value, i: nat, kind: string) {
    DecodeBlockDelta(v).Some? && DecodeBlockDelta(v).value.index == i && DecodeBlockDelta(v).value.kind == kind
  }

  /** The last block of a kind is the one that still grows. */
  predicate LastText(blocks: seq<Block>, i: nat) {
    i < |blocks| && blocks[i].Text? && forall j | i < j < |blocks| :: !blocks[j].Text?
  }

  predicate LastThinking(blocks: seq<Block>, i: nat) {
    i < |blocks| && blocks[i].Thinking? && forall j | i < j < |blocks| :: !blocks[j].Thinking?
  }

  predicate Grows(count: Option<int>, known: int) {
    count.Some? ==> known <= count.value
  }

  /** What a conforming upstream may send next: text and thinking go to the newest block of their kind, tool input to
      any tool block, token counts are cumulative. */
  predicate Allowed(m: AnthropicMessage, e: Event) {
    match e
    case MessageStart(_) => false
    case StartText | StartThinking | StartTool(_, _) => true
    case StartOther(tag) => tag != "text" && tag != "thinking" && tag != "tool_use"
    case TextPiece(i, _) => LastText(m.content, i)
    case ThinkingPiece(i, _) => LastThinking(m.content, i)
    case JsonPiece(i, _) => i < |m.content| && m.content[i].ToolUse?
    case OtherPiece(_, kind) => kind != "text_delta" && kind != "thinking_delta" && kind != "input_json_delta"
    case Closure(stopReason, input, output) =>
      && stopReason != Some("") && m.usage.Some?
      && Grows(input, m.usage.value.input) && Grows(output, m.usage.value.output)
    case Notice(name, _) =>
      name !in {"message_start", "content_block_start", "content_block_delta", "message_delta", "message_stop"}
  }

  /** How a client of the Anthropic interface folds one event into the message. */
  function Fold(m: AnthropicMessage, e: Event): AnthropicMessage
    requires Allowed(m, e)
  {
    match e
    case StartText => m.(content := m.content + [Text("")])
    case StartThinking => m.(content := m.content + [Thinking("")])
    case StartTool(id, name) => m.(content := m.content + [ToolUse(id, name, "")])
    case StartOther(tag) => m.(content := m.content + [OtherBlock(tag)])
    case TextPiece(i, text) => m.(content := m.content[i := Text(m.content[i].text + text)])
    case ThinkingPiece(i, thinking) => m.(content := m.content[i := Thinking(m.content[i].thinking + thinking)])
    case JsonPiece(i, json) =>
      var b := m.content[i];
      m.(content := m.content[i := ToolUse(b.id, b.name, b.input + json)])
    case Closure(stopReason, input, output) =>
      m.(stopReason := if stopReason.Some? then stopReason.value else m.stopReason,
         usage := Some(Usage(if input.Some? then input.value else m.usage.value.input,
                             if output.Some? then output.value else m.usage.value.output)))
    case OtherPiece(_, _) | Notice(_, _) => m
  }

  // ---------- Events as lines ----------

  /** An event as it arrives: the text of its payload and the line ending in use. */
  datatype Frame = Frame(event: Event, payload: string, carriageReturn: bool)

  predicate Ends(payload: string) {
    payload != "" && payload[|payload| - 1] != '\r' && payload[|payload| - 1] != '\n'
  }

  /** The payload text parses to a payload that says the event, and is not mistaken for the end marker. */
  predicate Carries(parse: string -> Option<Value>, f: Frame, blocks: nat) {
    && parse(f.payload).Some? && Says(parse(f.payload).value, f.event, blocks)
    && f.payload != "[DONE]" && Ends(f.payload) && Ends(Name(f.event))
  }

  function Eol(f: Frame): string {
    if f.carriageReturn then "\r" else ""
  }

  function Lines(f: Frame): seq<string> {
    ["event: " + Name(f.event) + Eol(f), "data: " + f.payload + Eol(f), Eol(f)]
  }

  function AllLines(frames: seq<Frame>): seq<string> {
    if frames == [] then [] else Lines(frames[0]) + AllLines(frames[1..])
  }

  ghost predicate Conforms(parse: string -> Option<Value>, m: AnthropicMessage, frames: seq<Frame>)
    decreases |frames|
  {
    frames == [] || (
      && Carries(parse, frames[0], |m.content|) && Allowed(m, frames[0].event)
      && Conforms(parse, Fold(m, frames[0].event), frames[1..]))
  }

  function FoldAll(parse: string -> Option<Value>, m: AnthropicMessage, frames: seq<Frame>): AnthropicMessage
    requires Conforms(parse, m, frames)
    decreases |frames|
  {
    if frames == [] then m else FoldAll(parse, Fold(m, frames[0].event), frames[1..])
  }

  // ---------- What a client of the OpenAI stream accumulates ----------

  const NOTHING := OpenAIMessage("", "", [], "", None)

  function Or(o: Option<string>, default: string): string {
    if o.Some? then o.value else default
  }

  function Absorb(acc: OpenAIMessage, o: Out): OpenAIMessage {
    match o
    case Delta(_, content, reasoning, finish, usage) =>
      acc.(content := acc.content + Or(content, ""), reasoning := acc.reasoning + Or(reasoning, ""),
           finishReason := Or(finish, acc.finishReason), usage := if usage.Some? then usage else acc.usage)
    case ToolDelta(slot, id, name, arguments) =>
      if slot == |acc.toolCalls| then
        acc.(toolCalls := acc.toolCalls + [ToolCall(Or(id, ""), Or(name, ""), arguments)])
      else if slot < |acc.toolCalls| then
        var t := acc.toolCalls[slot];
        acc.(toolCalls := acc.toolCalls[slot := ToolCall(Or(id, t.id), Or(name, t.name), t.arguments + arguments)])
      else acc
    case Done => acc
  }

  function Accumulate(acc: OpenAIMessage, out: seq<Out>): OpenAIMessage
    decreases |out|
  {
    if out == [] then acc else Accumulate(Absorb(acc, out[0]), out[1..])
  }

  lemma {:induction false} AccumulateAppend(acc: OpenAIMessage, a: seq<Out>, b: seq<Out>)
    ensures Accumulate(acc, a + b) == Accumulate(Accumulate(acc, a), b)
    decreases |a|
  {
    if a == [] {
      assert a + b == b;
    } else {
      assert (a + b)[1..] == a[1..] + b;
      AccumulateAppend(Absorb(acc, a[0]), a[1..], b);
    }
  }

  // ---------- Growing one block ----------

  /** The tool calls of the message with their input texts as they are. */
  function RawCalls(blocks: seq<Block>): seq<ToolCall> {
    if blocks == [] then []
    else
      var b := blocks[|blocks| - 1];
      RawCalls(blocks[..|blocks| - 1]) + if b.ToolUse? then [ToolCall(b.id, b.name, b.input)] else []
  }

  lemma {:induction false} GrowText(blocks: seq<Block>, i: nat, more: string)
    requires LastText(blocks, i)
    ensures var grown := blocks[i := Text(blocks[i].text + more)];
            && Texts(grown) == Texts(blocks) + more && Thoughts(grown) == Thoughts(blocks)
            && RawCalls(grown) == RawCalls(blocks)
  {
    var n := |blocks| - 1;
    var grown := blocks[i := Text(blocks[i].text + more)];
    if i < n {
      GrowText(blocks[..n], i, more);
      assert grown[..n] == blocks[..n][i := Text(blocks[i].text + more)];
    } else {
      assert grown[..n] == blocks[..n];
    }
  }

  lemma {:induction false} GrowThinking(blocks: seq<Block>, i: nat, more: string)
    requires LastThinking(blocks, i)
    ensures var grown := blocks[i := Thinking(blocks[i].thinking + more)];
            && Texts(grown) == Texts(blocks) && Thoughts(grown) == Thoughts(blocks) + more
            && RawCalls(grown) == RawCalls(blocks)
  {
    var n := |blocks| - 1;
    var grown := blocks[i := Thinking(blocks[i].thinking + more)];
    if i < n {
      GrowThinking(blocks[..n], i, more);
      assert grown[..n] == blocks[..n][i := Thinking(blocks[i].thinking + more)];
    } else {
      assert grown[..n] == blocks[..n];
    }
  }

  lemma {:induction false} GrowToolTexts(blocks: seq<Block>, i: nat, b: Block)
    requires i < |blocks| && blocks[i].ToolUse? && b.ToolUse?
    ensures Texts(blocks[i := b]) == Texts(blocks) && Thoughts(blocks[i := b]) == Thoughts(blocks)
  {
    var n := |blocks| - 1;
    if i < n {
      GrowToolTexts(blocks[..n], i, b);
      assert blocks[i := b][..n] == blocks[..n][i := b];
    } else {
      assert blocks[i := b][..n] == blocks[..n];
    }
  }

  lemma {:induction false} GrowTool(blocks: seq<Block>, i: nat, b: Block)
    requires i < |blocks| && blocks[i].ToolUse? && b.ToolUse?
    ensures var k := |RawCalls(blocks[..i])|;
            && k < |RawCalls(blocks)| && RawCalls(blocks)[k] == ToolCall(blocks[i].id, blocks[i].name, blocks[i].input)
            && RawCalls(blocks[i := b]) == RawCalls(blocks)[k := ToolCall(b.id, b.name, b.input)]
  {
    var n := |blocks| - 1;
    if i < n {
      GrowTool(blocks[..n], i, b);
      assert blocks[..n][..i] == blocks[..i];
      assert blocks[i := b][..n] == blocks[..n][i := b];
    } else {
      assert blocks[i := b][..n] == blocks[..n];
    }
  }

  lemma {:induction false} RawCallsGrow(blocks: seq<Block>, i: nat)
    requires i <= |blocks|
    ensures |RawCalls(blocks[..i])| <= |RawCalls(blocks)|
  {
    if i < |blocks| {
      RawCallsGrow(blocks[..|blocks| - 1], i);
      assert blocks[..|blocks| - 1][..i] == blocks[..i];
    } else {
      assert blocks[..i] == blocks;
    }
  }

  // ---------- The simulation ----------

  predicate SlotsMatch(slots: map<int, nat>, blocks: seq<Block>) {
    && (forall i | i in slots :: 0 <= i < |blocks| && blocks[i].ToolUse? && slots[i] == |RawCalls(blocks[..i])|)
    && (forall i: nat | i < |blocks| && blocks[i].ToolUse? :: i in slots)
  }

  /** Translator state, accumulated OpenAI answer and folded Anthropic message agree in mid-stream. */
  predicate Simulates(st: State, acc: OpenAIMessage, m: AnthropicMessage) {
    && acc == OpenAIMessage(Texts(m.content), Thoughts(m.content), RawCalls(m.content), "", None)
    && m.usage == Some(Usage(st.inputTokens, st.outputTokens)) && st.inputTokens >= 0 && st.outputTokens >= 0
    && m.stopReason == st.stopReason
    && st.nextTool == |RawCalls(m.content)| && st.hasTools == (st.nextTool > 0)
    && SlotsMatch(st.slots, m.content)
  }

  lemma RawCallsSnoc(blocks: seq<Block>, b: Block)
    ensures RawCalls(blocks + [b]) == RawCalls(blocks) + if b.ToolUse? then [ToolCall(b.id, b.name, b.input)] else []
  {
    assert (blocks + [b])[..|blocks|] == blocks;
  }

  lemma SlotsSnoc(blocks: seq<Block>, b: Block, slots: map<int, nat>)
    requires SlotsMatch(slots, blocks)
    ensures SlotsMatch(if b.ToolUse? then slots[|blocks| := |RawCalls(blocks)|] else slots, blocks + [b])
  {
    assert (blocks + [b])[..|blocks|] == blocks;
    assert forall i | 0 <= i < |blocks| :: (blocks + [b])[..i] == blocks[..i];
  }

  lemma AddBlock(blocks: seq<Block>, b: Block, slots: map<int, nat>)
    requires SlotsMatch(slots, blocks)
    ensures Texts(blocks + [b]) == Texts(blocks) + if b.Text? then b.text else ""
    ensures Thoughts(blocks + [b]) == Thoughts(blocks) + if b.Thinking? then b.thinking else ""
    ensures RawCalls(blocks + [b]) == RawCalls(blocks) + if b.ToolUse? then [ToolCall(b.id, b.name, b.input)] else []
    ensures SlotsMatch(if b.ToolUse? then slots[|blocks| := |RawCalls(blocks)|] else slots, blocks + [b])
  {
    BlockSnoc(blocks, b);
    RawCallsSnoc(blocks, b);
    SlotsSnoc(blocks, b, slots);
  }

  lemma {:induction false} ReplaceBlock(blocks: seq<Block>, i: nat, b: Block, k: nat)
    requires i < |blocks| && b.ToolUse? == blocks[i].ToolUse? && k <= |blocks|
    ensures |RawCalls(blocks[i := b][..k])| == |RawCalls(blocks[..k])|
  {
    if k > 0 {
      var grown := blocks[i := b];
      ReplaceBlock(blocks, i, b, k - 1);
      assert grown[..k][..k - 1] == grown[..k - 1] && blocks[..k][..k - 1] == blocks[..k - 1];
    }
  }

  lemma SlotsKept(blocks: seq<Block>, i: nat, b: Block, slots: map<int, nat>)
    requires SlotsMatch(slots, blocks) && i < |blocks| && b.ToolUse? == blocks[i].ToolUse?
    ensures SlotsMatch(slots, blocks[i := b])
  {
    forall k: nat | k <= |blocks| ensures |RawCalls(blocks[i := b][..k])| == |RawCalls(blocks[..k])| {
      ReplaceBlock(blocks, i, b, k);
    }
  }

  /** What the translator does with an event under its name and the payload `v`. */
  function Handle(st: State, e: Event, v: Value): (State, seq<Out>) {
    OnData(st.(event := Name(e)), Some(v))
  }

  /** The same, read off the event. */
  function Effect(st: State, e: Event, blocks: nat): (State, seq<Out>) {
    var named := st.(event := Name(e));
    match e
    case MessageStart(u) => (named.(inputTokens := u.input, outputTokens := u.output), [RoleChunk()])
    case StartTool(id, name) =>
      (named.(slots := st.slots[blocks := st.nextTool], nextTool := st.nextTool + 1, hasTools := true),
       [ToolDelta(st.nextTool, NonEmpty(id), NonEmpty(name), "")])
    case TextPiece(_, text) => (named, if text != "" then [ContentChunk(text, "")] else [])
    case ThinkingPiece(_, thinking) => (named, if thinking != "" then [ContentChunk("", thinking)] else [])
    case JsonPiece(i, json) => (named, if i in st.slots then [ToolDelta(st.slots[i], None, None, json)] else [])
    case Closure(stopReason, input, output) =>
      (named.(stopReason := if stopReason.Some? && stopReason != Some("") then stopReason.value else st.stopReason,
              inputTokens := if input.Some? && input.value > 0 then input.value else st.inputTokens,
              outputTokens := if output.Some? && output.value > 0 then output.value else st.outputTokens), [])
    case _ => (named, [])
  }

  lemma HandleStart(st: State, e: Event, v: Value, blocks: nat)
    requires e.StartText? || e.StartThinking? || e.StartTool? || (e.StartOther? && e.tag != "tool_use")
    requires Says(v, e, blocks)
    ensures Handle(st, e, v) == Effect(st, e, blocks)
  {
  }

  lemma HandlePiece(st: State, e: Event, v: Value, blocks: nat)
    requires e.TextPiece? || e.ThinkingPiece? || e.JsonPiece?
    requires Says(v, e, blocks)
    ensures Handle(st, e, v) == Effect(st, e, blocks)
  {
  }

  lemma HandleOther(st: State, e: Event, v: Value, blocks: nat)
    requires e.OtherPiece? && e.kind != "text_delta" && e.kind != "thinking_delta" && e.kind != "input_json_delta"
    requires Says(v, e, blocks)
    ensures Handle(st, e, v) == Effect(st, e, blocks)
  {
  }

  lemma HandleClosure(st: State, e: Event, v: Value, blocks: nat)
    requires e.Closure? && Says(v, e, blocks)
    ensures Handle(st, e, v) == Effect(st, e, blocks)
  {
  }

  lemma HandleMessageStart(st: State, u: Usage, v: Value, blocks: nat)
    requires Says(v, MessageStart(u), blocks)
    ensures Handle(st, MessageStart(u), v) == Effect(st, MessageStart(u), blocks)
  {
  }

  lemma HandleIsEffect(st: State, m: AnthropicMessage, e: Event, v: Value, blocks: nat)
    requires (Allowed(m, e) || e.MessageStart?) && Says(v, e, blocks)
    ensures Handle(st, e, v) == Effect(st, e, blocks)
  {
    match e {
      case MessageStart(u) => HandleMessageStart(st, u, v, blocks);
      case StartText | StartThinking | StartTool(_, _) | StartOther(_) => HandleStart(st, e, v, blocks);
      case TextPiece(_, _) | ThinkingPiece(_, _) | JsonPiece(_, _) => HandlePiece(st, e, v, blocks);
      case OtherPiece(_, _) => HandleOther(st, e, v, blocks);
      case Closure(_, _, _) => HandleClosure(st, e, v, blocks);
      case Notice(_, _) =>
    }
  }

  lemma One(acc: OpenAIMessage, o: Out)
    ensures Accumulate(acc, [o]) == Absorb(acc, o)
  {
    assert [o][1..] == [];
  }

  lemma SimulateText(st: State, acc: OpenAIMessage, m: AnthropicMessage, e: Event, blocks: nat)
    requires Simulates(st, acc, m) && Allowed(m, e) && e.TextPiece?
    ensures var h := Effect(st, e, blocks); Simulates(h.0, Accumulate(acc, h.1), Fold(m, e))
  {
    GrowText(m.content, e.index, e.text);
    SlotsKept(m.content, e.index, Text(m.content[e.index].text + e.text), st.slots);
    One(acc, ContentChunk(e.text, ""));
  }

  lemma SimulateThinking(st: State, acc: OpenAIMessage, m: AnthropicMessage, e: Event, blocks: nat)
    requires Simulates(st, acc, m) && Allowed(m, e) && e.ThinkingPiece?
    ensures var h := Effect(st, e, blocks); Simulates(h.0, Accumulate(acc, h.1), Fold(m, e))
  {
    GrowThinking(m.content, e.index, e.thinking);
    SlotsKept(m.content, e.index, Thinking(m.content[e.index].thinking + e.thinking), st.slots);
    One(acc, ContentChunk("", e.thinking));
  }

  lemma SimulateJson(st: State, acc: OpenAIMessage, m: AnthropicMessage, e: Event, blocks: nat)
    requires Simulates(st, acc, m) && Allowed(m, e) && e.JsonPiece?
    ensures var h := Effect(st, e, blocks); Simulates(h.0, Accumulate(acc, h.1), Fold(m, e))
  {
    var b := m.content[e.index];
    var grown := ToolUse(b.id, b.name, b.input + e.json);
    GrowTool(m.content, e.index, grown);
    GrowToolTexts(m.content, e.index, grown);
    SlotsKept(m.content, e.index, grown, st.slots);
    One(acc, ToolDelta(st.slots[e.index], None, None, e.json));
  }

  lemma SimulateStart(st: State, acc: OpenAIMessage, m: AnthropicMessage, e: Event, b: Block)
    requires Simulates(st, acc, m) && Allowed(m, e)
    requires b == match e case StartText => Text("") case StartThinking => Thinking("")
                  case StartTool(id, name) => ToolUse(id, name, "") case StartOther(tag) => OtherBlock(tag) case _ => b
    requires e.StartText? || e.StartThinking? || e.StartTool? || e.StartOther?
    ensures var h := Effect(st, e, |m.content|); Simulates(h.0, Accumulate(acc, h.1), Fold(m, e))
  {
    AddBlock(m.content, b, st.slots);
    if e.StartTool? {
      One(acc, ToolDelta(st.nextTool, NonEmpty(e.id), NonEmpty(e.name), ""));
    }
  }

  lemma Simulate(st: State, acc: OpenAIMessage, m: AnthropicMessage, e: Event)
    requires Simulates(st, acc, m) && Allowed(m, e)
    ensures var h := Effect(st, e, |m.content|); Simulates(h.0, Accumulate(acc, h.1), Fold(m, e))
  {
    match e {
      case StartText => SimulateStart(st, acc, m, e, Text(""));
      case StartThinking => SimulateStart(st, acc, m, e, Thinking(""));
      case StartTool(id, name) => SimulateStart(st, acc, m, e, ToolUse(id, name, ""));
      case StartOther(tag) => SimulateStart(st, acc, m, e, OtherBlock(tag));
      case TextPiece(_, _) => SimulateText(st, acc, m, e, |m.content|);
      case ThinkingPiece(_, _) => SimulateThinking(st, acc, m, e, |m.content|);
      case JsonPiece(_, _) => SimulateJson(st, acc, m, e, |m.content|);
      case _ =>
    }
  }

  // ---------- Lines ----------

  lemma TrimKeeps(s: string, carriageReturn: bool)
    requires Ends(s)
    ensures TrimRight(s + if carriageReturn then "\r" else "") == s
  {
    var cr := "\r";
    if carriageReturn {
      assert (s + cr)[..|s|] == s && (s + cr)[|s|] == '\r';
    } else {
      assert s + "" == s;
    }
  }

  lemma NameLine(parse: string -> Option<Value>, st: State, f: Frame)
    requires Ends(Name(f.event))
    ensures Feed(parse, st, Lines(f)[0]) == (st.(event := Name(f.event)), [], Read)
  {
    var line := EVENT_PREFIX + Name(f.event);
    TrimKeeps(line, f.carriageReturn);
    assert line[|EVENT_PREFIX|..] == Name(f.event);
  }

  lemma DataLine(parse: string -> Option<Value>, st: State, f: Frame)
    requires Ends(f.payload) && f.payload != "[DONE]" && st.event != "message_stop"
    ensures var h := OnData(st, parse(f.payload)); Feed(parse, st, Lines(f)[1]) == (h.0, h.1, Read)
  {
    var line := DATA_PREFIX + f.payload;
    TrimKeeps(line, f.carriageReturn);
    assert line[|DATA_PREFIX|..] == f.payload;
    assert line[0] == 'd' && EVENT_PREFIX[0] == 'e';
  }

  lemma BlankLine(parse: string -> Option<Value>, st: State, f: Frame)
    ensures Feed(parse, st, Lines(f)[2]) == (st, [], Read)
  {
    if f.carriageReturn {
      assert "\r"[..0] == "" && TrimRight("\r") == TrimRight("");
    }
  }

  lemma RunLine(parse: string -> Option<Value>, st: State, line: string, rest: seq<string>, st': State, out: seq<Out>)
    requires Feed(parse, st, line) == (st', out, Read)
    ensures Run(parse, st, [line] + rest) == out + Run(parse, st', rest)
  {
    assert ([line] + rest)[0] == line && ([line] + rest)[1..] == rest;
  }

  lemma RunThree(parse: string -> Option<Value>, st: State, a: string, b: string, c: string, rest: seq<string>,
                 st1: State, st2: State, out: seq<Out>)
    requires Feed(parse, st, a) == (st1, [], Read) && Feed(parse, st1, b) == (st2, out, Read)
    requires Feed(parse, st2, c) == (st2, [], Read)
    ensures Run(parse, st, [a, b, c] + rest) == out + Run(parse, st2, rest)
  {
    assert [a, b, c] + rest == [a] + ([b] + ([c] + rest));
    RunLine(parse, st, a, [b] + ([c] + rest), st1, []);
    RunLine(parse, st1, b, [c] + rest, st2, out);
    RunLine(parse, st2, c, rest, st2, []);
    NothingBefore(Run(parse, st1, [b] + ([c] + rest)));
    NothingBefore(Run(parse, st2, rest));
  }

  lemma NothingBefore(out: seq<Out>)
    ensures [] + out == out
  {
  }

  /** The lines of one event run its payload under its name. */
  lemma FrameRuns(parse: string -> Option<Value>, st: State, f: Frame, blocks: nat, v: Value, rest: seq<string>)
    requires Carries(parse, f, blocks) && parse(f.payload) == Some(v) && Name(f.event) != "message_stop"
    ensures Run(parse, st, Lines(f) + rest) == Handle(st, f.event, v).1 + Run(parse, Handle(st, f.event, v).0, rest)
  {
    NameLine(parse, st, f);
    DataLine(parse, st.(event := Name(f.event)), f);
    var h := Handle(st, f.event, v);
    BlankLine(parse, h.0, f);
    RunThree(parse, st, Lines(f)[0], Lines(f)[1], Lines(f)[2], rest, st.(event := Name(f.event)), h.0, h.1);
  }

  lemma FrameSimulates(parse: string -> Option<Value>, st: State, acc: OpenAIMessage, m: AnthropicMessage, f: Frame,
                       rest: seq<string>) returns (st': State, acc': OpenAIMessage)
    requires Simulates(st, acc, m) && Carries(parse, f, |m.content|) && Allowed(m, f.event)
    ensures Simulates(st', acc', Fold(m, f.event))
    ensures Accumulate(acc, Run(parse, st, Lines(f) + rest)) == Accumulate(acc', Run(parse, st', rest))
  {
    var v := parse(f.payload).value;
    var h := Handle(st, f.event, v);
    HandleIsEffect(st, m, f.event, v, |m.content|);
    Simulate(st, acc, m, f.event);
    FrameRuns(parse, st, f, |m.content|, v, rest);
    AccumulateAppend(acc, h.1, Run(parse, h.0, rest));
    st', acc' := h.0, Accumulate(acc, h.1);
  }

  lemma AllLinesStep(frames: seq<Frame>, rest: seq<string>)
    requires frames != []
    ensures AllLines(frames) + rest == Lines(frames[0]) + (AllLines(frames[1..]) + rest)
  {
  }

  lemma {:induction false} FramesSimulate(parse: string -> Option<Value>, st: State, acc: OpenAIMessage,
                                          m: AnthropicMessage, frames: seq<Frame>, rest: seq<string>)
    returns (st': State, acc': OpenAIMessage)
    requires Simulates(st, acc, m) && Conforms(parse, m, frames)
    ensures Simulates(st', acc', FoldAll(parse, m, frames))
    ensures Accumulate(acc, Run(parse, st, AllLines(frames) + rest)) == Accumulate(acc', Run(parse, st', rest))
    decreases |frames|
  {
    if frames == [] {
      st', acc' := st, acc;
      assert AllLines(frames) + rest == rest;
    } else {
      AllLinesStep(frames, rest);
      var st1, acc1 := FrameSimulates(parse, st, acc, m, frames[0], AllLines(frames[1..]) + rest);
      st', acc' := FramesSimulate(parse, st1, acc1, Fold(m, frames[0].event), frames[1..], rest);
    }
  }

  // ---------- The theorem ----------

  function Opening(u: Usage): AnthropicMessage {
    AnthropicMessage([], "", Some(u))
  }

  /** A stream that opens with `message_start` and its usage and goes on as a conforming upstream may. */
  ghost predicate Conforming(parse: string -> Option<Value>, frames: seq<Frame>) {
    && frames != [] && frames[0].event.MessageStart? && Carries(parse, frames[0], 0)
    && frames[0].event.usage.input >= 0 && frames[0].event.usage.output >= 0
    && Conforms(parse, Opening(frames[0].event.usage), frames[1..])
  }

  function Spelled(parse: string -> Option<Value>, frames: seq<Frame>): AnthropicMessage
    requires Conforming(parse, frames)
  {
    FoldAll(parse, Opening(frames[0].event.usage), frames[1..])
  }

  /** The answer a streaming client ends up with: the batch answer, but tool inputs as they were sent. */
  function Streamed(m: AnthropicMessage): OpenAIMessage {
    OpenAIMessage(Texts(m.content), Thoughts(m.content), RawCalls(m.content),
                  Finish(m.stopReason, RawCalls(m.content) != []), m.usage)
  }

  predicate ToolInputsValid(c: Codec, blocks: seq<Block>) {
    forall b | b in blocks && b.ToolUse? :: b.input != "" && c.IsValid(b.input)
  }

  lemma {:induction false} RawAgainstBatch(c: Codec, blocks: seq<Block>)
    requires c.Lawful()
    ensures |RawCalls(blocks)| == |Calls(c, blocks)|
    ensures RawCalls(blocks) == Calls(c, blocks) <==> ToolInputsValid(c, blocks)
  {
    if blocks != [] {
      var n := |blocks| - 1;
      var b := blocks[n];
      RawAgainstBatch(c, blocks[..n]);
      assert blocks == blocks[..n] + [b];
      if b.ToolUse? {
        var raw, batch := RawCalls(blocks), Calls(c, blocks);
        assert raw[..|raw| - 1] == RawCalls(blocks[..n]) && batch[..|batch| - 1] == Calls(c, blocks[..n]);
        assert raw[|raw| - 1] == ToolCall(b.id, b.name, b.input);
        assert batch[|batch| - 1] == ToolCall(b.id, b.name, Arguments(c, b.input));
      } else {
        assert RawCalls(blocks) == RawCalls(blocks[..n]) && Calls(c, blocks) == Calls(c, blocks[..n]);
      }
      assert forall x :: x in blocks <==> x in blocks[..n] || x == b;
    }
  }

  lemma OpeningRuns(parse: string -> Option<Value>, frames: seq<Frame>, rest: seq<string>)
    returns (st: State, acc: OpenAIMessage)
    requires Conforming(parse, frames)
    ensures Simulates(st, acc, Spelled(parse, frames))
    ensures Accumulate(NOTHING, Transcript(parse, AllLines(frames) + rest)) == Accumulate(acc, Run(parse, st, rest))
  {
    var f := frames[0];
    var u := f.event.usage;
    var v := parse(f.payload).value;
    var h := Handle(START, f.event, v);
    HandleMessageStart(START, u, v, 0);
    var next := AllLines(frames[1..]) + rest;
    AllLinesStep(frames, rest);
    FrameRuns(parse, START, f, 0, v, next);
    One(NOTHING, RoleChunk());
    AccumulateAppend(NOTHING, h.1, Run(parse, h.0, next));
    assert Accumulate(NOTHING, h.1) == NOTHING;
    st, acc := FramesSimulate(parse, h.0, NOTHING, Opening(u), frames[1..], rest);
  }

  lemma Settle(st: State, acc: OpenAIMessage, m: AnthropicMessage)
    requires Simulates(st, acc, m)
    ensures Accumulate(acc, [FinalChunk(st), Done]) == Streamed(m)
  {
    assert [FinalChunk(st), Done][1..] == [Done] && [Done][1..] == [];
    assert Accumulate(acc, [FinalChunk(st), Done]) == Accumulate(Absorb(acc, FinalChunk(st)), [Done]);
    One(Absorb(acc, FinalChunk(st)), Done);
  }

  function StopLines(payload: string, carriageReturn: bool): seq<string> {
    var eol := if carriageReturn then "\r" else "";
    ["event: " + "message_stop" + eol, "data: " + payload + eol]
  }

  lemma StopLine(parse: string -> Option<Value>, st: State, payload: string, carriageReturn: bool)
    requires Ends(payload) && payload != "[DONE]" && st.event == "message_stop"
    ensures Feed(parse, st, StopLines(payload, carriageReturn)[1]) == (st, [FinalChunk(st), Done], Stop)
  {
    var line := DATA_PREFIX + payload;
    TrimKeeps(line, carriageReturn);
    assert line[|DATA_PREFIX|..] == payload;
    assert line[0] == 'd' && EVENT_PREFIX[0] == 'e';
  }

  lemma StopRuns(parse: string -> Option<Value>, st: State, payload: string, carriageReturn: bool, more: seq<string>)
    requires Ends(payload) && payload != "[DONE]"
    ensures var st' := st.(event := "message_stop");
            Run(parse, st, StopLines(payload, carriageReturn) + more) == [FinalChunk(st'), Done]
  {
    var lines, st' := StopLines(payload, carriageReturn), st.(event := "message_stop");
    NameLine(parse, st, Frame(Notice("message_stop", Null), payload, carriageReturn));
    StopLine(parse, st', payload, carriageReturn);
    assert lines + more == [lines[0]] + ([lines[1]] + more);
    RunLine(parse, st, lines[0], [lines[1]] + more, st', []);
    NothingBefore(Run(parse, st', [lines[1]] + more));
    assert ([lines[1]] + more)[0] == lines[1];
  }

  /** A conforming stream closed by `message_stop`, with anything after it: the accumulated chunks are the batch
      translation of the spelled message, tool arguments included, exactly when every input is non-empty valid JSON. */
  lemma StreamRefinesBatch(c: Codec, frames: seq<Frame>, payload: string, carriageReturn: bool, more: seq<string>)
    requires c.Lawful() && Conforming(c.parse, frames) && Ends(payload) && payload != "[DONE]"
    ensures var m := Spelled(c.parse, frames);
            var lines := AllLines(frames) + (StopLines(payload, carriageReturn) + more);
            var got := Accumulate(NOTHING, Transcript(c.parse, lines));
            && got == Streamed(m) && |got.toolCalls| == |ToOpenAI(c, m).toolCalls|
            && got.(toolCalls := []) == ToOpenAI(c, m).(toolCalls := [])
            && (got == ToOpenAI(c, m) <==> ToolInputsValid(c, m.content))
  {
    var m := Spelled(c.parse, frames);
    var end := StopLines(payload, carriageReturn) + more;
    var st, acc := OpeningRuns(c.parse, frames, end);
    StopRuns(c.parse, st, payload, carriageReturn, more);
    Settle(st.(event := "message_stop"), acc, m);
    RawAgainstBatch(c, m.content);
  }

  lemma EndRuns(parse: string -> Option<Value>, st: State, end: seq<string>)
    requires st.stopReason != "" && (end == [] || TrimRight(end[0]) == DATA_PREFIX + "[DONE]")
    ensures Run(parse, st, end) == [FinalChunk(st), Done]
  {
    if end != [] {
      var line := DATA_PREFIX + "[DONE]";
      assert line[|DATA_PREFIX|..] == "[DONE]" && line[0] == 'd' && EVENT_PREFIX[0] == 'e';
    }
  }

  /** The same when the upstream closes the connection, or sends `[DONE]`, after giving its stop reason. */
  lemma UnstoppedStreamRefinesBatch(c: Codec, frames: seq<Frame>, end: seq<string>)
    requires c.Lawful() && Conforming(c.parse, frames) && Spelled(c.parse, frames).stopReason != ""
    requires end == [] || TrimRight(end[0]) == DATA_PREFIX + "[DONE]"
    ensures var m := Spelled(c.parse, frames);
            var got := Accumulate(NOTHING, Transcript(c.parse, AllLines(frames) + end));
            got == Streamed(m) && (got == ToOpenAI(c, m) <==> ToolInputsValid(c, m.content))
  {
    var m := Spelled(c.parse, frames);
    var st, acc := OpeningRuns(c.parse, frames, end);
    EndRuns(c.parse, st, end);
    Settle(st, acc, m);
    RawAgainstBatch(c, m.content);
  }

  // ---------- What the client is told ----------

  lemma {:induction false} RawCallsOfTools(blocks: seq<Block>)
    ensures RawCalls(blocks) != [] <==> UsesTools(blocks)
  {
    if blocks != [] {
      var front, last := blocks[..|blocks| - 1], blocks[|blocks| - 1];
      assert blocks == front + [last];
      RawCallsOfTools(front);
      UsesToolsSnoc(front, last);
    }
  }

  lemma StreamedTellsFinish(m: AnthropicMessage)
    ensures TellsFinish(Streamed(m).finishReason, m.stopReason, UsesTools(m.content)) && Streamed(m).usage == m.usage
  {
    RawCallsOfTools(m.content);
  }

  /** The finish reason a streaming client ends up with, case by case, with and without `message_stop`. */
  lemma StreamTellsFinish(c: Codec, frames: seq<Frame>, payload: string, carriageReturn: bool, more: seq<string>)
    requires c.Lawful() && Conforming(c.parse, frames) && Ends(payload) && payload != "[DONE]"
    ensures var m := Spelled(c.parse, frames);
            var lines := AllLines(frames) + (StopLines(payload, carriageReturn) + more);
            var got := Accumulate(NOTHING, Transcript(c.parse, lines));
            TellsFinish(got.finishReason, m.stopReason, UsesTools(m.content)) && got.usage == m.usage
    ensures var m := Spelled(c.parse, frames);
            var got := Accumulate(NOTHING, Transcript(c.parse, AllLines(frames) + []));
            m.stopReason != "" ==> TellsFinish(got.finishReason, m.stopReason, UsesTools(m.content))
  {
    var m := Spelled(c.parse, frames);
    StreamRefinesBatch(c, frames, payload, carriageReturn, more);
    StreamedTellsFinish(m);
    if m.stopReason != "" {
      UnstoppedStreamRefinesBatch(c, frames, []);
    }
  }

  /** The first record names the role. */
  lemma RoleComesFirst(parse: string -> Option<Value>, frames: seq<Frame>, rest: seq<string>)
    requires Conforming(parse, frames)
    ensures var out := Transcript(parse, AllLines(frames) + rest);
            out != [] && out[0] == Delta(true, Some(""), None, None, None)
  {
    var f := frames[0];
    var v := parse(f.payload).value;
    HandleMessageStart(START, f.event.usage, v, 0);
    AllLinesStep(frames, rest);
    FrameRuns(parse, START, f, 0, v, AllLines(frames[1..]) + rest);
  }
}
