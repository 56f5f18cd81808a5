/** The Anthropic messages the gateway writes, as JSON values, and what reading them gives. */
module WireFormat {
  import opened Json
  import opened Requests

  /** A string member, left out when it is empty. */
  function Member(key: string, s: string): map<string, Value> {
    if s == "" then map[] else map[key := Str(s)]
  }

  /** A block as it is encoded; the raw input of a tool call becomes its value. */
  function EncodeBlock(c: Codec, b: Block): Value {
    match b
    case Text(text) => Obj(map["type" := Str("text")] + Member("text", text))
    case Thinking(thinking) => Obj(map["type" := Str("thinking")] + Member("thinking", thinking))
    case ToolUse(id, name, input) =>
      Obj(map["type" := Str("tool_use")] + Member("id", id) + Member("name", name)
          + if c.IsValid(input) then map["input" := c.parse(input).value] else map[])
    case ToolResult(toolUseId, result) =>
      Obj(map["type" := Str("tool_result")] + Member("tool_use_id", toolUseId)
          + if result.Some? then map["content" := result.value] else map[])
    case OtherBlock(tag) => Obj(map["type" := Str(tag)])
  }

  function EncodeBlocks(c: Codec, bs: seq<Block>): seq<Value> {
    seq(|bs|, i requires 0 <= i < |bs| => EncodeBlock(c, bs[i]))
  }

  function EncodeContent(c: Codec, content: Content): Value {
    match content
    case Plain(text) => Str(text)
    case Blocks(bs) => Arr(EncodeBlocks(c, bs))
  }

  /** The raw text that a decoder keeps of a tool input is the one the encoder wrote. */
  predicate KeepsInput(c: Codec, b: Block, rawText: Value -> string) {
    b.ToolUse? ==> c.IsValid(b.input) && rawText(c.parse(b.input).value) == c.compact(b.input)
  }

  type Fields = map<string, Value>

  lemma MemberIsRead(fields: Fields, key: string, s: string)
    requires key !in fields
    ensures StringField(fields + Member(key, s), key) == Some(s)
    ensures forall k | k != key :: (k in fields + Member(key, s) <==> k in fields)
                                   && (k in fields ==> (fields + Member(key, s))[k] == fields[k])
  {
  }

  lemma DecodeKnown(f: Fields, kind: string, text: string, thinking: string, id: string, name: string, use: string,
                    rawText: Value -> string)
    requires StringField(f, "type") == Some(kind) && StringField(f, "text") == Some(text)
    requires StringField(f, "thinking") == Some(thinking) && StringField(f, "id") == Some(id)
    requires StringField(f, "name") == Some(name) && StringField(f, "tool_use_id") == Some(use)
    requires "is_error" !in f
    ensures DecodeBlock(Obj(f), rawText)
         == Some(match kind
                 case "text" => Text(text)
                 case "thinking" => Thinking(thinking)
                 case "tool_use" => ToolUse(id, name, if "input" in f then rawText(f["input"]) else "")
                 case "tool_result" => ToolResult(use, if "content" in f then Some(f["content"]) else None)
                 case _ => OtherBlock(kind))
  {
  }

  lemma TwoMembersAreRead(kind: string, id: string, name: string) returns (f: Fields)
    ensures f == map["type" := Str(kind)] + Member("id", id) + Member("name", name)
    ensures StringField(f, "type") == Some(kind) && StringField(f, "id") == Some(id)
    ensures StringField(f, "name") == Some(name)
    ensures f.Keys <= {"type", "id", "name"}
  {
    var start: Fields := map["type" := Str(kind)];
    f := start + Member("id", id) + Member("name", name);
    MemberIsRead(start, "id", id);
    MemberIsRead(start + Member("id", id), "name", name);
  }

  lemma ToolUseIsRead(c: Codec, id: string, name: string, input: string, rawText: Value -> string)
    requires c.Lawful() && c.IsValid(input) && rawText(c.parse(input).value) == c.compact(input)
    ensures DecodeBlock(EncodeBlock(c, ToolUse(id, name, input)), rawText)
         == Some(ToolUse(id, name, c.compact(input)))
  {
    var named := TwoMembersAreRead("tool_use", id, name);
    var f := named + map["input" := c.parse(input).value];
    DecodeKnown(f, "tool_use", "", "", id, name, "", rawText);
  }

  lemma ToolResultIsRead(c: Codec, id: string, result: Option<Value>, rawText: Value -> string)
    ensures DecodeBlock(EncodeBlock(c, ToolResult(id, result)), rawText) == Some(ToolResult(id, result))
  {
    var start: Fields := map["type" := Str("tool_result")];
    var f := start + Member("tool_use_id", id) + if result.Some? then map["content" := result.value] else map[];
    MemberIsRead(start, "tool_use_id", id);
    DecodeKnown(f, "tool_result", "", "", "", "", id, rawText);
  }

  lemma WordsAreRead(kind: string, words: string, rawText: Value -> string)
    requires kind in {"text", "thinking"}
    ensures DecodeBlock(Obj(map["type" := Str(kind)] + Member(kind, words)), rawText)
         == Some(if kind == "text" then Text(words) else Thinking(words))
  {
    var start: Fields := map["type" := Str(kind)];
    MemberIsRead(start, kind, words);
    DecodeKnown(start + Member(kind, words), kind, if kind == "text" then words else "",
                if kind == "text" then "" else words, "", "", "", rawText);
  }

  lemma BlockIsRead(c: Codec, b: Block, rawText: Value -> string)
    requires c.Lawful() && !b.OtherBlock? && KeepsInput(c, b, rawText)
    ensures DecodeBlock(EncodeBlock(c, b), rawText) == Some(WireBlock(c, b))
  {
    match b {
      case Text(text) => WordsAreRead("text", text, rawText);
      case Thinking(thinking) => WordsAreRead("thinking", thinking, rawText);
      case ToolUse(id, name, input) => ToolUseIsRead(c, id, name, input, rawText);
      case ToolResult(id, result) => ToolResultIsRead(c, id, result, rawText);
      case OtherBlock(_) =>
    }
  }

  lemma DecodeSnoc(vs: seq<Value>, v: Value, front: seq<Block>, b: Block, rawText: Value -> string)
    requires DecodeBlocks(vs, rawText) == Some(front) && DecodeBlock(v, rawText) == Some(b)
    ensures DecodeBlocks(vs + [v], rawText) == Some(front + [b])
  {
    assert (vs + [v])[..|vs|] == vs;
  }

  lemma EncodeSnoc(c: Codec, front: seq<Block>, b: Block)
    ensures EncodeBlocks(c, front + [b]) == EncodeBlocks(c, front) + [EncodeBlock(c, b)]
    ensures WireBlocks(c, front + [b]) == WireBlocks(c, front) + [WireBlock(c, b)]
  {
  }

  lemma {:induction false} BlocksAreRead(c: Codec, bs: seq<Block>, rawText: Value -> string)
    requires c.Lawful() && forall b | b in bs :: !b.OtherBlock? && KeepsInput(c, b, rawText)
    ensures DecodeBlocks(EncodeBlocks(c, bs), rawText) == Some(WireBlocks(c, bs))
  {
    if bs == [] {
      assert EncodeBlocks(c, bs) == [] && WireBlocks(c, bs) == [];
    } else {
      var front, last := bs[..|bs| - 1], bs[|bs| - 1];
      assert last in bs && forall b | b in front :: b in bs;
      assert bs == front + [last];
      BlocksAreRead(c, front, rawText);
      BlockIsRead(c, last, rawText);
      EncodeSnoc(c, front, last);
      DecodeSnoc(EncodeBlocks(c, front), EncodeBlock(c, last), WireBlocks(c, front), WireBlock(c, last), rawText);
    }
  }

  lemma {:induction false} ToolUseBlocksKeep(c: Codec, tcs: seq<ToolCall>, rawText: Value -> string)
    requires c.Lawful()
    requires forall tc | tc in tcs :: KeepsInput(c, ToolUseBlock(c, tc), rawText)
    ensures forall b | b in ToolUseBlocks(c, tcs) :: !b.OtherBlock? && KeepsInput(c, b, rawText)
  {
    if tcs != [] {
      assert tcs[|tcs| - 1] in tcs && forall tc | tc in tcs[..|tcs| - 1] :: tc in tcs;
      ToolUseBlocksKeep(c, tcs[..|tcs| - 1], rawText);
    }
  }

  /** Every message the translator writes is read back as the wire hands it on. */
  lemma WrittenMessageIsRead(c: Codec, m: OAMessage, rawText: Value -> string)
    requires c.Lawful() && forall tc | tc in m.toolCalls :: KeepsInput(c, ToolUseBlock(c, tc), rawText)
    ensures var a := MessageToAnthropic(c, m);
            AMessage(a.role, ReadContent(Some(EncodeContent(c, a.content)), rawText)) == WireMessage(c, a)
  {
    var a := MessageToAnthropic(c, m);
    if a.content.Blocks? {
      ToolUseBlocksKeep(c, m.toolCalls, rawText);
      BlocksAreRead(c, a.content.blocks, rawText);
    }
  }
}
