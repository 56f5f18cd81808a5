/** Batch translation of whole responses between the Anthropic and OpenAI formats. */
module Responses {
  import opened Json

  datatype Usage = Usage(input: int, output: int)

  /** A content block by its type tag; `input` is the raw JSON text of a tool call, empty when absent. */
  datatype Block =
    | Text(text: string)
    | Thinking(thinking: string)
    | ToolUse(id: string, name: string, input: string)
    | OtherBlock(tag: string)

  datatype AnthropicMessage = AnthropicMessage(content: seq<Block>, stopReason: string, usage: Option<Usage>)

  datatype ToolCall = ToolCall(id: string, name: string, arguments: string)

  datatype OpenAIMessage = OpenAIMessage(
    content: string, reasoning: string, toolCalls: seq<ToolCall>, finishReason: string, usage: Option<Usage>)

  function MapStopReasonToFinish(sr: string): string {
    if sr == "end_turn" || sr == "stop_sequence" then "stop"
    else if sr == "max_tokens" then "length"
    else if sr == "tool_use" then "tool_calls"
    else sr
  }

  function MapFinishReason(fr: string): string {
    if fr == "stop" then "end_turn" else if fr == "length" then "max_tokens" else fr
  }

  /** The finish reason of an answer, corrected when tools were called. */
  function Finish(stopReason: string, hasToolCalls: bool): string {
    var finish := MapStopReasonToFinish(stopReason);
    if hasToolCalls && (finish == "stop" || finish == "") then "tool_calls" else finish
  }

  predicate UsesTools(blocks: seq<Block>) {
    exists i :: 0 <= i < |blocks| && blocks[i].ToolUse?
  }

  /** What a client of the OpenAI format is told for a stop reason. An upstream that says `stop` already speaks that
      format, and is corrected like the others. */
  predicate TellsFinish(finish: string, stopReason: string, usedTools: bool) {
    && (usedTools && stopReason in {"end_turn", "stop_sequence", "stop", ""} ==> finish == "tool_calls")
    && (!usedTools && stopReason in {"end_turn", "stop_sequence", "stop"} ==> finish == "stop")
    && (!usedTools && stopReason == "" ==> finish == "")
    && (stopReason == "max_tokens" ==> finish == "length")
    && (stopReason == "tool_use" ==> finish == "tool_calls")
    && (stopReason !in {"end_turn", "stop_sequence", "stop", "", "max_tokens", "tool_use"} ==> finish == stopReason)
  }

  function Arguments(c: Codec, input: string): string {
    if input == "" || !c.IsValid(input) then "{}" else input
  }

  /** All text of the answer, in block order. */
  function Texts(blocks: seq<Block>): string {
    if blocks == [] then ""
    else
      var b := blocks[|blocks| - 1];
      Texts(blocks[..|blocks| - 1]) + (if b.Text? then b.text else "")
  }

  function Thoughts(blocks: seq<Block>): string {
    if blocks == [] then ""
    else
      var b := blocks[|blocks| - 1];
      Thoughts(blocks[..|blocks| - 1]) + (if b.Thinking? then b.thinking else "")
  }

  function Calls(c: Codec, blocks: seq<Block>): seq<ToolCall> {
    if blocks == [] then []
    else
      var b := blocks[|blocks| - 1];
      Calls(c, blocks[..|blocks| - 1])
      + if b.ToolUse? then [ToolCall(b.id, b.name, Arguments(c, b.input))] else []
  }

  function ToOpenAI(c: Codec, m: AnthropicMessage): OpenAIMessage {
    var calls := Calls(c, m.content);
    OpenAIMessage(Texts(m.content), Thoughts(m.content), calls, Finish(m.stopReason, calls != []), m.usage)
  }

  function Concat(parts: seq<string>): string {
    if parts == [] then "" else Concat(parts[..|parts| - 1]) + parts[|parts| - 1]
  }

  lemma ConcatSnoc(parts: seq<string>, p: string)
    ensures Concat(parts + [p]) == Concat(parts) + p
  {
    assert (parts + [p])[..|parts|] == parts;
  }

  /** The loop over the content blocks of an Anthropic answer. */
  method TranslateAnthropicToOpenAIResponse(c: Codec, m: AnthropicMessage) returns (r: OpenAIMessage)
    ensures r == ToOpenAI(c, m)
    ensures TellsFinish(r.finishReason, m.stopReason, UsesTools(m.content)) && r.usage == m.usage
  {
    CallsOfTools(c, m.content);
    var textParts: seq<string>, thinkingParts: seq<string>, toolCalls: seq<ToolCall> := [], [], [];
    for i := 0 to |m.content|
      invariant Concat(textParts) == Texts(m.content[..i])
      invariant Concat(thinkingParts) == Thoughts(m.content[..i])
      invariant toolCalls == Calls(c, m.content[..i])
    {
      NextBlock(c, m.content, i);
      var b := m.content[i];
      match b {
        case Text(text) =>
          ConcatSnoc(textParts, text);
          textParts := textParts + [text];
        case Thinking(thinking) =>
          ConcatSnoc(thinkingParts, thinking);
          thinkingParts := thinkingParts + [thinking];
        case ToolUse(id, name, input) =>
          var args := input;
          if args == "" || !c.IsValid(input) {
            args := "{}";
          }
          toolCalls := toolCalls + [ToolCall(id, name, args)];
        case OtherBlock(_) =>
      }
    }
    assert m.content[..|m.content|] == m.content;
    var finishReason := MapStopReasonToFinish(m.stopReason);
    if |toolCalls| > 0 && (finishReason == "stop" || finishReason == "") {
      finishReason := "tool_calls";
    }
    r := OpenAIMessage(Concat(textParts), Concat(thinkingParts), toolCalls, finishReason, m.usage);
  }

  lemma NextBlock(c: Codec, blocks: seq<Block>, i: nat)
    requires i < |blocks|
    ensures var b := blocks[i];
            && Texts(blocks[..i + 1]) == (if b.Text? then Texts(blocks[..i]) + b.text else Texts(blocks[..i]))
            && Thoughts(blocks[..i + 1])
               == (if b.Thinking? then Thoughts(blocks[..i]) + b.thinking else Thoughts(blocks[..i]))
            && Calls(c, blocks[..i + 1])
               == (if b.ToolUse? then Calls(c, blocks[..i]) + [ToolCall(b.id, b.name, Arguments(c, b.input))]
                   else Calls(c, blocks[..i]))
  {
    assert blocks[..i + 1][..i] == blocks[..i];
    assert Texts(blocks[..i]) + "" == Texts(blocks[..i]) && Thoughts(blocks[..i]) + "" == Thoughts(blocks[..i]);
  }

  lemma UsesToolsSnoc(front: seq<Block>, b: Block)
    ensures UsesTools(front + [b]) <==> UsesTools(front) || b.ToolUse?
  {
    var blocks := front + [b];
    if UsesTools(front) {
      var i :| 0 <= i < |front| && front[i].ToolUse?;
      assert blocks[i].ToolUse?;
    }
    if b.ToolUse? {
      assert blocks[|front|].ToolUse?;
    }
    if !UsesTools(front) && !b.ToolUse? {
      assert forall i | 0 <= i < |blocks| :: !blocks[i].ToolUse?;
    }
  }

  lemma {:induction false} CallsOfTools(c: Codec, blocks: seq<Block>)
    ensures Calls(c, blocks) != [] <==> UsesTools(blocks)
  {
    if blocks != [] {
      var front, last := blocks[..|blocks| - 1], blocks[|blocks| - 1];
      assert blocks == front + [last];
      CallsOfTools(c, front);
      UsesToolsSnoc(front, last);
    }
  }

  /** What each further block of an answer adds to the translation. */
  lemma OneMoreBlock(c: Codec, front: seq<Block>, b: Block, stopReason: string, usage: Option<Usage>)
    ensures var before := ToOpenAI(c, AnthropicMessage(front, stopReason, usage));
            var r := ToOpenAI(c, AnthropicMessage(front + [b], stopReason, usage));
            && (b.Text? ==> r == before.(content := before.content + b.text))
            && (b.Thinking? ==> r == before.(reasoning := before.reasoning + b.thinking))
            && (b.ToolUse? && b.input != "" && c.IsValid(b.input) ==>
                  r.toolCalls == before.toolCalls + [ToolCall(b.id, b.name, b.input)])
            && (b.ToolUse? && (b.input == "" || !c.IsValid(b.input)) ==>
                  r.toolCalls == before.toolCalls + [ToolCall(b.id, b.name, "{}")])
            && (b.ToolUse? ==> r.content == before.content && r.reasoning == before.reasoning)
            && (b.OtherBlock? ==> r == before)
    ensures var none := ToOpenAI(c, AnthropicMessage([], stopReason, usage));
            none.content == "" && none.reasoning == "" && none.toolCalls == []
  {
    assert (front + [b])[..|front|] == front;
    BlockSnoc(front, b);
    assert Texts(front) + "" == Texts(front);
    assert Thoughts(front) + "" == Thoughts(front);
  }

  lemma BlockSnoc(blocks: seq<Block>, b: Block)
    ensures Texts(blocks + [b]) == Texts(blocks) + if b.Text? then b.text else ""
    ensures Thoughts(blocks + [b]) == Thoughts(blocks) + if b.Thinking? then b.thinking else ""
  {
    assert (blocks + [b])[..|blocks|] == blocks;
  }
}
