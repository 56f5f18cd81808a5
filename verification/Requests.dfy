/** Translation of whole requests between the OpenAI and Anthropic formats, in both directions. */
module Requests {
  import opened Json

  // ---------- OpenAI requests ----------

  datatype ToolCall = ToolCall(id: string, kind: string, name: string, arguments: string)

  /** `content` is the raw member, absent or any JSON value. */
  datatype OAMessage = OAMessage(
    role: string, content: Option<Value>, reasoning: string, toolCalls: seq<ToolCall>, toolCallId: string, name: string)

  datatype OATool = OATool(kind: string, name: string, description: string, parameters: Option<Value>)

  datatype OARequest = OARequest(
    model: string, messages: seq<OAMessage>, maxTokens: int, temperature: Option<real>, stream: bool,
    stop: seq<string>, topP: Option<real>, tools: seq<OATool>, toolChoice: Option<Value>)

  // ---------- Anthropic requests ----------

  /** A content block by its type tag; `input` is raw JSON text, empty when absent. */
  datatype Block =
    | Text(text: string)
    | Thinking(thinking: string)
    | ToolUse(id: string, name: string, input: string)
    | ToolResult(toolUseId: string, result: Option<Value>)
    | OtherBlock(tag: string)

  /** An array of blocks, or anything else with the text that is read from it. */
  datatype Content = Plain(text: string) | Blocks(blocks: seq<Block>)

  datatype AMessage = AMessage(role: string, content: Content)

  /** A message as received, its content still undecoded. */
  datatype RawMessage = RawMessage(role: string, content: Option<Value>)

  datatype ATool = ATool(name: string, description: string, inputSchema: Option<Value>)

  datatype ARequest<M> = ARequest(
    model: string, messages: seq<M>, system: string, maxTokens: int, temperature: Option<real>, stream: bool,
    stopSequences: seq<string>, topP: Option<real>, tools: seq<ATool>, toolChoice: Option<Value>)

  // ---------- Reading text ----------

  function Join(parts: seq<string>, sep: string): string {
    if parts == [] then ""
    else if |parts| == 1 then parts[0]
    else Join(parts[..|parts| - 1], sep) + sep + parts[|parts| - 1]
  }

  /** The text of one element of a content array, if the element decodes. */
  function PartText(v: Value): Option<string> {
    var part :- Struct(v);
    var kind :- StringField(part, "type");
    var text :- StringField(part, "text");
    Some(if kind == "text" then text else "")
  }

  predicate AllParts(vs: seq<Value>) {
    forall v | v in vs :: PartText(v).Some?
  }

  function PartTexts(vs: seq<Value>): seq<string>
    requires AllParts(vs)
  {
    if vs == [] then []
    else
      var t := PartText(vs[|vs| - 1]).value;
      PartTexts(vs[..|vs| - 1]) + if t != "" then [t] else []
  }

  /** Text of a content member: a string, or the text parts of an array, one per line. */
  function ExtractText(raw: Option<Value>): string {
    match raw
    case None => ""
    case Some(Null) => ""
    case Some(Str(s)) => s
    case Some(Arr(vs)) => if AllParts(vs) then Join(PartTexts(vs), "\n") else ""
    case Some(_) => ""
  }

  // ---------- Reading blocks ----------

  /** One element of an array of blocks: an element with a member of another type than its own does not decode. */
  function DecodeBlock(v: Value, rawText: Value -> string): Option<Block> {
    var part :- Struct(v);
    var kind :- StringField(part, "type");
    var text :- StringField(part, "text");
    var thinking :- StringField(part, "thinking");
    var id :- StringField(part, "id");
    var name :- StringField(part, "name");
    var toolUseId :- StringField(part, "tool_use_id");
    var _ :- BoolField(part, "is_error");
    Some(match kind
         case "text" => Text(text)
         case "thinking" => Thinking(thinking)
         case "tool_use" => ToolUse(id, name, if "input" in part then rawText(part["input"]) else "")
         case "tool_result" => ToolResult(toolUseId, if "content" in part then Some(part["content"]) else None)
         case _ => OtherBlock(kind))
  }

  function DecodeBlocks(vs: seq<Value>, rawText: Value -> string): Option<seq<Block>> {
    if vs == [] then Some([])
    else
      var front :- DecodeBlocks(vs[..|vs| - 1], rawText);
      var last :- DecodeBlock(vs[|vs| - 1], rawText);
      Some(front + [last])
  }

  /** Text of a tool result: a string, or the text blocks of an array, one per line; anything else as it is written. */
  function ExtractToolResultText(raw: Option<Value>, rawText: Value -> string): string {
    match raw
    case None => ""
    case Some(Null) => ""
    case Some(Str(s)) => s
    case Some(Arr(vs)) =>
      var blocks := DecodeBlocks(vs, rawText);
      if blocks.Some? then Join(BlockTexts(blocks.value), "\n") else rawText(Arr(vs))
    case Some(v) => rawText(v)
  }

  /** Text of a content that is no array of blocks. */
  function ExtractTextContent(raw: Option<Value>, rawText: Value -> string): string {
    match raw
    case None => ""
    case Some(Null) => ""
    case Some(Str(s)) => s
    case Some(v) => rawText(v)
  }

  function ReadContent(raw: Option<Value>, rawText: Value -> string): Content {
    var blocks := if raw.Some? && raw.value.Arr? then DecodeBlocks(raw.value.items, rawText) else None;
    if blocks.Some? then Blocks(blocks.value) else Plain(ExtractTextContent(raw, rawText))
  }

  function Read(ms: seq<RawMessage>, rawText: Value -> string): seq<AMessage> {
    seq(|ms|, i requires 0 <= i < |ms| => AMessage(ms[i].role, ReadContent(ms[i].content, rawText)))
  }

  function Received(r: ARequest<RawMessage>, rawText: Value -> string): ARequest<AMessage> {
    ARequest(r.model, Read(r.messages, rawText), r.system, r.maxTokens, r.temperature, r.stream, r.stopSequences,
             r.topP, r.tools, r.toolChoice)
  }

  // ---------- Tool choice ----------

  function ToolChoiceOAToAnth(raw: Value): Option<Value> {
    match raw
    case Null => None
    case Str(s) =>
      if s == "auto" then Some(Obj(map["type" := Str("auto")]))
      else if s == "required" then Some(Obj(map["type" := Str("any")]))
      else None
    case Obj(top) =>
      var kind :- StringField(top, "type");
      var fn :- StructField(top, "function");
      var name :- StringField(fn, "name");
      if kind == "function" && name != "" then Some(Obj(map["type" := Str("tool"), "name" := Str(name)])) else None
    case _ => None
  }

  function ToolChoiceAnthToOA(raw: Value): Option<Value> {
    var top :- Struct(raw);
    var kind :- StringField(top, "type");
    var name :- StringField(top, "name");
    match kind
    case "auto" => Some(Str("auto"))
    case "any" => Some(Str("required"))
    case "tool" => Some(NamedChoice(name))
    case _ => None
  }

  function NamedChoice(name: string): Value {
    Obj(map["type" := Str("function"), "function" := Obj(map["name" := Str(name)])])
  }

  // ---------- OpenAI to Anthropic ----------

  const DEFAULT_MAX_TOKENS := 4096

  function ToolUseBlock(c: Codec, tc: ToolCall): Block {
    ToolUse(tc.id, tc.name, if tc.arguments == "" || !c.IsValid(tc.arguments) then "{}" else tc.arguments)
  }

  function ToolUseBlocks(c: Codec, tcs: seq<ToolCall>): seq<Block> {
    if tcs == [] then [] else ToolUseBlocks(c, tcs[..|tcs| - 1]) + [ToolUseBlock(c, tcs[|tcs| - 1])]
  }

  /** A message other than a system message. */
  function MessageToAnthropic(c: Codec, m: OAMessage): AMessage {
    var text := ExtractText(m.content);
    if m.role == "tool" then AMessage("user", Blocks([ToolResult(m.toolCallId, Some(Str(text)))]))
    else if m.role == "assistant" && m.toolCalls != [] then
      AMessage("assistant", Blocks((if text != "" then [Text(text)] else []) + ToolUseBlocks(c, m.toolCalls)))
    else AMessage(if m.role != "user" && m.role != "assistant" then "user" else m.role, Plain(text))
  }

  function MessagesToAnthropic(c: Codec, ms: seq<OAMessage>): seq<AMessage> {
    if ms == [] then []
    else
      var m := ms[|ms| - 1];
      MessagesToAnthropic(c, ms[..|ms| - 1]) + if m.role == "system" then [] else [MessageToAnthropic(c, m)]
  }

  function SystemParts(ms: seq<OAMessage>): seq<string> {
    if ms == [] then []
    else
      var m := ms[|ms| - 1];
      SystemParts(ms[..|ms| - 1])
      + if m.role == "system" && ExtractText(m.content) != "" then [ExtractText(m.content)] else []
  }

  function ToolsToAnthropic(ts: seq<OATool>): seq<ATool> {
    seq(|ts|, i requires 0 <= i < |ts| => ATool(ts[i].name, ts[i].description, ts[i].parameters))
  }

  function ToAnthropic(c: Codec, r: OARequest): ARequest<AMessage> {
    ARequest(r.model, MessagesToAnthropic(c, r.messages), Join(SystemParts(r.messages), "\n\n"),
             if r.maxTokens <= 0 then DEFAULT_MAX_TOKENS else r.maxTokens, r.temperature, r.stream, r.stop, r.topP,
             ToolsToAnthropic(r.tools), if r.toolChoice.Some? then ToolChoiceOAToAnth(r.toolChoice.value) else None)
  }

  // ---------- The wire ----------

  function WireBlock(c: Codec, b: Block): Block {
    if b.ToolUse? && b.input != "" then b.(input := c.compact(b.input)) else b
  }

  function WireBlocks(c: Codec, bs: seq<Block>): seq<Block> {
    seq(|bs|, i requires 0 <= i < |bs| => WireBlock(c, bs[i]))
  }

  function WireMessage(c: Codec, m: AMessage): AMessage {
    if m.content.Plain? then m else m.(content := Blocks(WireBlocks(c, m.content.blocks)))
  }

  function WireMessages(c: Codec, ms: seq<AMessage>): seq<AMessage> {
    seq(|ms|, i requires 0 <= i < |ms| => WireMessage(c, ms[i]))
  }

  function WireTool(t: ATool): ATool {
    if t.inputSchema.None? then t.(inputSchema := Some(Null)) else t
  }

  /** Encoding an Anthropic request and decoding it: raw fragments are compacted, a missing schema becomes `null`. */
  function Wire(c: Codec, r: ARequest<AMessage>): ARequest<AMessage> {
    r.(messages := WireMessages(c, r.messages),
       tools := seq(|r.tools|, i requires 0 <= i < |r.tools| => WireTool(r.tools[i])))
  }

  // ---------- Anthropic to OpenAI ----------

  function BlockTexts(bs: seq<Block>): seq<string> {
    if bs == [] then []
    else
      var b := bs[|bs| - 1];
      BlockTexts(bs[..|bs| - 1]) + if b.Text? && b.text != "" then [b.text] else []
  }

  function BlockCalls(bs: seq<Block>): seq<ToolCall> {
    if bs == [] then []
    else
      var b := bs[|bs| - 1];
      BlockCalls(bs[..|bs| - 1])
      + if b.ToolUse? then [ToolCall(b.id, "function", b.name, if b.input != "" then b.input else "{}")] else []
  }

  function ToolMessage(id: string, text: string): OAMessage {
    OAMessage("tool", Some(Str(text)), "", [], id, "")
  }

  function BlockResults(bs: seq<Block>, rawText: Value -> string): seq<OAMessage> {
    if bs == [] then []
    else
      var b := bs[|bs| - 1];
      BlockResults(bs[..|bs| - 1], rawText)
      + if b.ToolResult? then [ToolMessage(b.toolUseId, ExtractToolResultText(b.result, rawText))] else []
  }

  /** Tool results first, each its own message, then one message for the texts and tool calls, if there are any. */
  function MessageToOpenAI(m: AMessage, rawText: Value -> string): seq<OAMessage> {
    match m.content
    case Plain(text) => [OAMessage(m.role, Some(Str(text)), "", [], "", "")]
    case Blocks(bs) =>
      var texts, calls := BlockTexts(bs), BlockCalls(bs);
      BlockResults(bs, rawText)
      + if texts != [] || calls != [] then
          [OAMessage(m.role, if texts != [] then Some(Str(Join(texts, "\n"))) else None, "", calls, "", "")]
        else []
  }

  function MessagesToOpenAI(ms: seq<AMessage>, rawText: Value -> string): seq<OAMessage> {
    if ms == [] then []
    else MessagesToOpenAI(ms[..|ms| - 1], rawText) + MessageToOpenAI(ms[|ms| - 1], rawText)
  }

  function SystemMessage(text: string): OAMessage {
    OAMessage("system", Some(Str(text)), "", [], "", "")
  }

  function ToolsToOpenAI(ts: seq<ATool>): seq<OATool> {
    seq(|ts|, i requires 0 <= i < |ts| => OATool("function", ts[i].name, ts[i].description, ts[i].inputSchema))
  }

  function ToOpenAI(r: ARequest<AMessage>, rawText: Value -> string): OARequest {
    OARequest(r.model,
              (if r.system != "" then [SystemMessage(r.system)] else []) + MessagesToOpenAI(r.messages, rawText),
              r.maxTokens, r.temperature, r.stream, r.stopSequences, r.topP, ToolsToOpenAI(r.tools),
              if r.toolChoice.Some? then ToolChoiceAnthToOA(r.toolChoice.value) else None)
  }

  // ---------- The translators' loops ----------

  lemma MessageSnoc(c: Codec, ms: seq<OAMessage>, i: nat)
    requires i < |ms|
    ensures MessagesToAnthropic(c, ms[..i + 1])
         == MessagesToAnthropic(c, ms[..i]) + if ms[i].role == "system" then [] else [MessageToAnthropic(c, ms[i])]
    ensures SystemParts(ms[..i + 1])
         == SystemParts(ms[..i])
            + if ms[i].role == "system" && ExtractText(ms[i].content) != "" then [ExtractText(ms[i].content)] else []
  {
    assert ms[..i + 1][..i] == ms[..i];
  }

  /** The blocks of an assistant message that calls tools. */
  method AssistantBlocks(c: Codec, msg: OAMessage) returns (blocks: seq<Block>)
    requires msg.role == "assistant" && msg.toolCalls != []
    ensures AMessage("assistant", Blocks(blocks)) == MessageToAnthropic(c, msg)
  {
    blocks := [];
    var text := ExtractText(msg.content);
    if text != "" {
      blocks := blocks + [Text(text)];
    }
    ghost var lead := blocks;
    var calls := CallBlocks(c, msg.toolCalls);
    blocks := blocks + calls;
    assert MessageToAnthropic(c, msg).content == Blocks(lead + ToolUseBlocks(c, msg.toolCalls));
  }

  /** The loop over the tool calls. */
  method CallBlocks(c: Codec, tcs: seq<ToolCall>) returns (blocks: seq<Block>)
    ensures blocks == ToolUseBlocks(c, tcs)
  {
    blocks := [];
    for j := 0 to |tcs|
      invariant blocks == ToolUseBlocks(c, tcs[..j])
    {
      assert tcs[..j + 1][..j] == tcs[..j];
      var input := tcs[j].arguments;
      if input == "" || !c.IsValid(input) {
        input := "{}";
      }
      blocks := blocks + [ToolUse(tcs[j].id, tcs[j].name, input)];
    }
    assert tcs[..|tcs|] == tcs;
  }

  /** The loop over the messages: system texts apart, every other message in its place. */
  method SplitMessages(c: Codec, ms: seq<OAMessage>) returns (sysParts: seq<string>, messages: seq<AMessage>)
    ensures sysParts == SystemParts(ms) && messages == MessagesToAnthropic(c, ms)
  {
    sysParts, messages := [], [];
    for i := 0 to |ms|
      invariant sysParts == SystemParts(ms[..i]) && messages == MessagesToAnthropic(c, ms[..i])
    {
      MessageSnoc(c, ms, i);
      var msg := ms[i];
      if msg.role == "system" {
        var text := ExtractText(msg.content);
        if text != "" {
          sysParts := sysParts + [text];
        }
        continue;
      }
      if msg.role == "tool" {
        var block := ToolResult(msg.toolCallId, Some(Str(ExtractText(msg.content))));
        messages := messages + [AMessage("user", Blocks([block]))];
        continue;
      }
      if msg.role == "assistant" && |msg.toolCalls| > 0 {
        var blocks := AssistantBlocks(c, msg);
        messages := messages + [AMessage("assistant", Blocks(blocks))];
        continue;
      }
      var role := msg.role;
      if role != "user" && role != "assistant" {
        role := "user";
      }
      messages := messages + [AMessage(role, Plain(ExtractText(msg.content)))];
    }
    assert ms[..|ms|] == ms;
  }

  method TranslateOpenAIToAnthropicRequest(c: Codec, oaReq: OARequest) returns (anthReq: ARequest<AMessage>)
    ensures anthReq == ToAnthropic(c, oaReq)
  {
    var maxTokens := oaReq.maxTokens;
    if maxTokens <= 0 {
      maxTokens := 4096;
    }
    var tools: seq<ATool> := [];
    for i := 0 to |oaReq.tools|
      invariant |tools| == i && forall k | 0 <= k < i :: tools[k] == ToolsToAnthropic(oaReq.tools)[k]
    {
      var t := oaReq.tools[i];
      tools := tools + [ATool(t.name, t.description, t.parameters)];
    }
    assert tools == ToolsToAnthropic(oaReq.tools);
    var toolChoice := None;
    if oaReq.toolChoice.Some? {
      toolChoice := ToolChoiceOAToAnth(oaReq.toolChoice.value);
    }
    var sysParts, messages := SplitMessages(c, oaReq.messages);
    var system := "";
    if |sysParts| > 0 {
      system := Join(sysParts, "\n\n");
    }
    anthReq := ARequest(oaReq.model, messages, system, maxTokens, oaReq.temperature, oaReq.stream, oaReq.stop,
                        oaReq.topP, tools, toolChoice);
  }

  /** The blocks of one message, sorted into texts, tool calls and tool results. */
  method SplitBlocks(blocks: seq<Block>, rawText: Value -> string)
    returns (textParts: seq<string>, toolCalls: seq<ToolCall>, toolResults: seq<OAMessage>)
    ensures textParts == BlockTexts(blocks) && toolCalls == BlockCalls(blocks)
    ensures toolResults == BlockResults(blocks, rawText)
  {
    textParts, toolCalls, toolResults := [], [], [];
    for j := 0 to |blocks|
      invariant textParts == BlockTexts(blocks[..j]) && toolCalls == BlockCalls(blocks[..j])
      invariant toolResults == BlockResults(blocks[..j], rawText)
    {
      assert blocks[..j + 1][..j] == blocks[..j];
      match blocks[j] {
        case Text(text) =>
          if text != "" {
            textParts := textParts + [text];
          }
        case ToolUse(id, name, input) =>
          var arguments := "{}";
          if |input| > 0 {
            arguments := input;
          }
          toolCalls := toolCalls + [ToolCall(id, "function", name, arguments)];
        case ToolResult(id, result) =>
          toolResults := toolResults + [ToolMessage(id, ExtractToolResultText(result, rawText))];
        case Thinking(_) =>
        case OtherBlock(_) =>
      }
    }
    assert blocks[..|blocks|] == blocks;
  }

  method TranslateMessage(msg: RawMessage, rawText: Value -> string) returns (messages: seq<OAMessage>)
    ensures messages == MessageToOpenAI(AMessage(msg.role, ReadContent(msg.content, rawText)), rawText)
  {
    messages := [];
    var blocks := None;
    if msg.content.Some? && msg.content.value.Arr? {
      blocks := DecodeBlocks(msg.content.value.items, rawText);
    }
    if blocks.Some? {
      var textParts, toolCalls, toolResults := SplitBlocks(blocks.value, rawText);
      if |toolResults| > 0 {
        messages := messages + toolResults;
      }
      if |textParts| > 0 || |toolCalls| > 0 {
        var content := None;
        if |textParts| > 0 {
          content := Some(Str(Join(textParts, "\n")));
        }
        messages := messages + [OAMessage(msg.role, content, "", toolCalls, "", "")];
      }
    } else {
      messages := messages + [OAMessage(msg.role, Some(Str(ExtractTextContent(msg.content, rawText))), "", [], "", "")];
    }
  }

  method TranslateMessages(ms: seq<RawMessage>, rawText: Value -> string) returns (messages: seq<OAMessage>)
    ensures messages == MessagesToOpenAI(Read(ms, rawText), rawText)
  {
    messages := [];
    for i := 0 to |ms|
      invariant messages == MessagesToOpenAI(Read(ms[..i], rawText), rawText)
    {
      ReadNext(ms, i, rawText);
      var out := TranslateMessage(ms[i], rawText);
      messages := messages + out;
    }
    assert ms[..|ms|] == ms;
  }

  lemma ReadNext(ms: seq<RawMessage>, i: nat, rawText: Value -> string)
    requires i < |ms|
    ensures MessagesToOpenAI(Read(ms[..i + 1], rawText), rawText)
         == MessagesToOpenAI(Read(ms[..i], rawText), rawText)
            + MessageToOpenAI(AMessage(ms[i].role, ReadContent(ms[i].content, rawText)), rawText)
  {
    var read := Read(ms[..i + 1], rawText);
    assert read[..i] == Read(ms[..i], rawText);
  }

  method TranslateTools(ts: seq<ATool>) returns (tools: seq<OATool>)
    ensures tools == ToolsToOpenAI(ts)
  {
    tools := [];
    for i := 0 to |ts|
      invariant |tools| == i && forall k | 0 <= k < i :: tools[k] == ToolsToOpenAI(ts)[k]
    {
      tools := tools + [OATool("function", ts[i].name, ts[i].description, ts[i].inputSchema)];
    }
  }

  lemma ReceivedToOpenAI(r: ARequest<RawMessage>, rawText: Value -> string)
    ensures ToOpenAI(Received(r, rawText), rawText)
         == OARequest(r.model,
                      (if r.system != "" then [SystemMessage(r.system)] else [])
                      + MessagesToOpenAI(Read(r.messages, rawText), rawText),
                      r.maxTokens, r.temperature, r.stream, r.stopSequences, r.topP, ToolsToOpenAI(r.tools),
                      if r.toolChoice.Some? then ToolChoiceAnthToOA(r.toolChoice.value) else None)
  {
  }

  method TranslateAnthropicToOpenAI(anthReq: ARequest<RawMessage>, rawText: Value -> string)
    returns (oaReq: OARequest)
    ensures oaReq == ToOpenAI(Received(anthReq, rawText), rawText)
  {
    var tools := TranslateTools(anthReq.tools);
    var toolChoice := None;
    if anthReq.toolChoice.Some? {
      toolChoice := ToolChoiceAnthToOA(anthReq.toolChoice.value);
    }
    var messages: seq<OAMessage> := [];
    if anthReq.system != "" {
      messages := [SystemMessage(anthReq.system)];
    }
    var translated := TranslateMessages(anthReq.messages, rawText);
    messages := messages + translated;
    ReceivedToOpenAI(anthReq, rawText);
    oaReq := OARequest(anthReq.model, messages, anthReq.maxTokens, anthReq.temperature, anthReq.stream,
                       anthReq.stopSequences, anthReq.topP, tools, toolChoice);
  }
}
