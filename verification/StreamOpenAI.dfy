/** The line-driven translation of an Anthropic event stream into OpenAI stream chunks. */
module StreamOpenAI {
  import opened Json
  import opened Responses

  // ---------- Output ----------

  /** One `data:` record written to the client; absent members are `None`. */
  datatype Out =
    | Delta(role: bool, content: Option<string>, reasoning: Option<string>, finish: Option<string>,
            usage: Option<Usage>)
    | ToolDelta(slot: nat, id: Option<string>, name: Option<string>, arguments: string)
    | Done

  function NonEmpty(s: string): Option<string> {
    if s == "" then None else Some(s)
  }

  function RoleChunk(): Out {
    Delta(true, Some(""), None, None, None)
  }

  function ContentChunk(text: string, thinking: string): Out {
    Delta(false, NonEmpty(text), NonEmpty(thinking), None, None)
  }

  // ---------- Payloads ----------

  datatype BlockStart = BlockStart(index: int, kind: string, id: string, name: string)
  datatype BlockDelta = BlockDelta(index: int, kind: string, text: string, thinking: string, partialJson: string)
  datatype MessageDelta = MessageDelta(stopReason: string, usage: Option<Usage>)

  function DecodeUsage(fields: map<string, Value>): Option<Option<Usage>> {
    var pointer :- PointerField(fields, "usage");
    if pointer.None? then Some(None)
    else
      var input :- IntField(pointer.value, "input_tokens");
      var output :- IntField(pointer.value, "output_tokens");
      Some(Some(Usage(input, output)))
  }

  function DecodeMessageStart(v: Value): Option<Option<Usage>> {
    var top :- Struct(v);
    var message :- StructField(top, "message");
    DecodeUsage(message)
  }

  function DecodeBlockStart(v: Value): Option<BlockStart> {
    var top :- Struct(v);
    var index :- IntField(top, "index");
    var block :- StructField(top, "content_block");
    var kind :- StringField(block, "type");
    var id :- StringField(block, "id");
    var name :- StringField(block, "name");
    Some(BlockStart(index, kind, id, name))
  }

  function DecodeBlockDelta(v: Value): Option<BlockDelta> {
    var top :- Struct(v);
    var index :- IntField(top, "index");
    var delta :- StructField(top, "delta");
    var kind :- StringField(delta, "type");
    var text :- StringField(delta, "text");
    var thinking :- StringField(delta, "thinking");
    var partialJson :- StringField(delta, "partial_json");
    Some(BlockDelta(index, kind, text, thinking, partialJson))
  }

  function DecodeMessageDelta(v: Value): Option<MessageDelta> {
    var top :- Struct(v);
    var delta :- StructField(top, "delta");
    var stopReason :- StringField(delta, "stop_reason");
    var usage :- DecodeUsage(top);
    Some(MessageDelta(stopReason, usage))
  }

  // ---------- The state machine ----------

  datatype State = State(
    inputTokens: int, outputTokens: int, stopReason: string,
    slots: map<int, nat>, nextTool: nat, hasTools: bool, event: string)

  const START := State(0, 0, "", map[], 0, false, "")

  const EVENT_PREFIX := "event: "
  const DATA_PREFIX := "data: "

  function TrimRight(line: string): string {
    if line != "" && (line[|line| - 1] == '\r' || line[|line| - 1] == '\n') then TrimRight(line[..|line| - 1]) else line
  }

  function FinalChunk(st: State): Out {
    Delta(false, None, None, NonEmpty(Finish(st.stopReason, st.hasTools)), Some(Usage(st.inputTokens, st.outputTokens)))
  }

  /** One payload under the current event name, `None` when it is no JSON; `message_stop` is handled by `Feed`. */
  function OnData(st: State, payload: Option<Value>): (State, seq<Out>) {
    match st.event
    case "message_start" =>
      var usage := if payload.Some? then DecodeMessageStart(payload.value) else None;
      (match usage
       case Some(Some(u)) => st.(inputTokens := u.input, outputTokens := u.output)
       case _ => st,
       [RoleChunk()])
    case "content_block_start" =>
      var start := if payload.Some? then DecodeBlockStart(payload.value) else None;
      if start.Some? && start.value.kind == "tool_use" then
        var s := start.value;
        (st.(slots := st.slots[s.index := st.nextTool], nextTool := st.nextTool + 1, hasTools := true),
         [ToolDelta(st.nextTool, NonEmpty(s.id), NonEmpty(s.name), "")])
      else (st, [])
    case "content_block_delta" =>
      var delta := if payload.Some? then DecodeBlockDelta(payload.value) else None;
      (st, if delta.None? then [] else OnBlockDelta(st, delta.value))
    case "message_delta" =>
      var delta := if payload.Some? then DecodeMessageDelta(payload.value) else None;
      (if delta.None? then st else OnMessageDelta(st, delta.value), [])
    case _ => (st, [])
  }

  function OnBlockDelta(st: State, d: BlockDelta): seq<Out> {
    match d.kind
    case "text_delta" => if d.text != "" then [ContentChunk(d.text, "")] else []
    case "thinking_delta" => if d.thinking != "" then [ContentChunk("", d.thinking)] else []
    case "input_json_delta" =>
      if d.index in st.slots then [ToolDelta(st.slots[d.index], None, None, d.partialJson)] else []
    case _ => []
  }

  function OnMessageDelta(st: State, d: MessageDelta): State {
    var stopped := if d.stopReason != "" then st.(stopReason := d.stopReason) else st;
    match d.usage
    case None => stopped
    case Some(u) =>
      stopped.(outputTokens := if u.output > 0 then u.output else st.outputTokens,
               inputTokens := if u.input > 0 then u.input else st.inputTokens)
  }

  datatype Next = Read | Leave | Stop

  /** One complete line: the new state, what is written, and whether reading goes on. */
  function Feed(parse: string -> Option<Value>, st: State, raw: string): (State, seq<Out>, Next) {
    var line := TrimRight(raw);
    if line == "" then (st, [], Read)
    else if EVENT_PREFIX <= line then (st.(event := line[|EVENT_PREFIX|..]), [], Read)
    else if !(DATA_PREFIX <= line) then (st, [], Read)
    else
      var data := line[|DATA_PREFIX|..];
      if data == "[DONE]" then (st, [], Leave)
      else if st.event == "message_stop" then (st, [FinalChunk(st), Done], Stop)
      else
        var (st', out) := OnData(st, parse(data));
        (st', out, Read)
  }

  function Tail(st: State): seq<Out> {
    (if st.stopReason != "" then [FinalChunk(st)] else []) + [Done]
  }

  /** Everything written from state `st` on. */
  function Run(parse: string -> Option<Value>, st: State, lines: seq<string>): seq<Out>
    decreases |lines|
  {
    if lines == [] then Tail(st)
    else
      var (st', out, next) := Feed(parse, st, lines[0]);
      match next
      case Read => out + Run(parse, st', lines[1..])
      case Leave => out + Tail(st')
      case Stop => out
  }

  function Transcript(parse: string -> Option<Value>, lines: seq<string>): seq<Out> {
    Run(parse, START, lines)
  }

  /** What follows once a line has been handled. */
  function Onward(parse: string -> Option<Value>, st: State, next: Next, lines: seq<string>): seq<Out> {
    match next
    case Read => Run(parse, st, lines)
    case Leave => Tail(st)
    case Stop => []
  }

  /** The lines up to the one that ends the stream: the state after them, what they write, and whether reading would
      go on. */
  function Until(parse: string -> Option<Value>, st: State, lines: seq<string>): (State, seq<Out>, Next)
    decreases |lines|
  {
    if lines == [] then (st, [], Read)
    else
      var (st', out, next) := Feed(parse, st, lines[0]);
      if next != Read then (st', out, next)
      else
        var (end, more, last) := Until(parse, st', lines[1..]);
        (end, out + more, last)
  }

  lemma UntilStep(parse: string -> Option<Value>, st: State, lines: seq<string>, i: nat, written: seq<Out>)
    requires i < |lines|
    ensures var (st', out, next) := Feed(parse, st, lines[i]);
            var rest := Until(parse, st', lines[i + 1..]);
            var here := Until(parse, st, lines[i..]);
            && (next == Read ==> (here.0, written + here.1, here.2) == (rest.0, written + out + rest.1, rest.2))
            && (next != Read ==> here == (st', out, next))
  {
    assert lines[i..][1..] == lines[i + 1..];
    var (st', out, next) := Feed(parse, st, lines[i]);
    var more := Until(parse, st', lines[i + 1..]).1;
    assert written + (out + more) == written + out + more;
  }

  lemma {:induction false} RunIsUntilThenTail(parse: string -> Option<Value>, st: State, lines: seq<string>)
    ensures var (end, out, next) := Until(parse, st, lines);
            Run(parse, st, lines) == if next == Stop then out else out + Tail(end)
    decreases |lines|
  {
    if lines != [] {
      var (st', out, next) := Feed(parse, st, lines[0]);
      if next == Read {
        RunIsUntilThenTail(parse, st', lines[1..]);
        var (end, more, last) := Until(parse, st', lines[1..]);
        assert out + (more + Tail(end)) == out + more + Tail(end);
      }
    }
  }

  /** The translator's variables, shared by its emitting closures, with the writer it appends to. */
  class Translator {
    var inputTokens: int
    var outputTokens: int
    var stopReason: string
    var toolCallSlot: map<int, nat>
    var nextToolIdx: nat
    var hasToolCalls: bool
    var currentEvent: string
    var dst: seq<Out>

    constructor ()
      ensures Current() == START && dst == []
    {
      inputTokens, outputTokens, stopReason := 0, 0, "";
      toolCallSlot, nextToolIdx, hasToolCalls := map[], 0, false;
      currentEvent, dst := "", [];
    }

    function Current(): State
      reads this
    {
      State(inputTokens, outputTokens, stopReason, toolCallSlot, nextToolIdx, hasToolCalls, currentEvent)
    }

    method EmitChunk(deltaContent: string, deltaReasoning: string, finishReason: string, usage: Option<Usage>,
                     role: bool)
      modifies this`dst
      ensures dst == old(dst) + [Delta(role, if deltaContent == "" && role then Some("") else NonEmpty(deltaContent),
                                       NonEmpty(deltaReasoning), NonEmpty(finishReason), usage)]
    {
      var content, reasoning, finish := None, None, None;
      if role {
        content := Some("");
      }
      if deltaContent != "" {
        content := Some(deltaContent);
      }
      if deltaReasoning != "" {
        reasoning := Some(deltaReasoning);
      }
      if finishReason != "" {
        finish := Some(finishReason);
      }
      dst := dst + [Delta(role, content, reasoning, finish, usage)];
    }

    method EmitToolCallChunk(toolIdx: nat, id: string, name: string, argsDelta: string)
      modifies this`dst
      ensures dst == old(dst) + [ToolDelta(toolIdx, NonEmpty(id), NonEmpty(name), argsDelta)]
    {
      dst := dst + [ToolDelta(toolIdx, NonEmpty(id), NonEmpty(name), argsDelta)];
    }

    method EmitFinal()
      modifies this`dst
      ensures dst == old(dst) + [FinalChunk(Current())]
    {
      var finish := MapStopReasonToFinish(stopReason);
      if hasToolCalls && (finish == "stop" || finish == "") {
        finish := "tool_calls";
      }
      EmitChunk("", "", finish, Some(Usage(inputTokens, outputTokens)), false);
    }

    method OnContentBlockStart(payload: Option<Value>)
      requires currentEvent == "content_block_start"
      modifies this
      ensures Current() == OnData(old(Current()), payload).0
      ensures dst == old(dst) + OnData(old(Current()), payload).1
    {
      var ev := if payload.Some? then DecodeBlockStart(payload.value) else None;
      if ev.Some? && ev.value.kind == "tool_use" {
        var slot := nextToolIdx;
        nextToolIdx := nextToolIdx + 1;
        toolCallSlot := toolCallSlot[ev.value.index := slot];
        hasToolCalls := true;
        EmitToolCallChunk(slot, ev.value.id, ev.value.name, "");
      }
    }

    method OnContentBlockDelta(payload: Option<Value>)
      requires currentEvent == "content_block_delta"
      modifies this`dst
      ensures Current() == OnData(old(Current()), payload).0
      ensures dst == old(dst) + OnData(old(Current()), payload).1
    {
      var ev := if payload.Some? then DecodeBlockDelta(payload.value) else None;
      if ev.None? {
        return;
      }
      var delta := ev.value;
      match delta.kind {
        case "text_delta" =>
          if delta.text != "" {
            EmitChunk(delta.text, "", "", None, false);
          }
        case "thinking_delta" =>
          if delta.thinking != "" {
            EmitChunk("", delta.thinking, "", None, false);
          }
        case "input_json_delta" =>
          if delta.index in toolCallSlot {
            EmitToolCallChunk(toolCallSlot[delta.index], "", "", delta.partialJson);
          }
        case _ =>
      }
    }

    method OnMessageDelta(payload: Option<Value>)
      requires currentEvent == "message_delta"
      modifies this
      ensures Current() == OnData(old(Current()), payload).0
      ensures dst == old(dst) + OnData(old(Current()), payload).1
    {
      var ev := if payload.Some? then DecodeMessageDelta(payload.value) else None;
      if ev.Some? {
        if ev.value.stopReason != "" {
          stopReason := ev.value.stopReason;
        }
        if ev.value.usage.Some? {
          var usage := ev.value.usage.value;
          if usage.output > 0 {
            outputTokens := usage.output;
          }
          if usage.input > 0 {
            inputTokens := usage.input;
          }
        }
      }
    }

    method OnMessageStart(payload: Option<Value>)
      requires currentEvent == "message_start"
      modifies this
      ensures Current() == OnData(old(Current()), payload).0
      ensures dst == old(dst) + OnData(old(Current()), payload).1
    {
      var ev := if payload.Some? then DecodeMessageStart(payload.value) else None;
      if ev.Some? && ev.value.Some? {
        inputTokens := ev.value.value.input;
        outputTokens := ev.value.value.output;
      }
      EmitChunk("", "", "", None, true);
    }

    method OnLine(parse: string -> Option<Value>, raw: string) returns (next: Next)
      modifies this
      ensures Current() == Feed(parse, old(Current()), raw).0 && next == Feed(parse, old(Current()), raw).2
      ensures dst == old(dst) + Feed(parse, old(Current()), raw).1
    {
      var line := TrimRight(raw);
      if line == "" {
        return Read;
      }
      if EVENT_PREFIX <= line {
        currentEvent := line[|EVENT_PREFIX|..];
        return Read;
      }
      if !(DATA_PREFIX <= line) {
        return Read;
      }
      var data := line[|DATA_PREFIX|..];
      if data == "[DONE]" {
        return Leave;
      }
      match currentEvent {
        case "message_start" => OnMessageStart(parse(data));
        case "content_block_start" => OnContentBlockStart(parse(data));
        case "content_block_delta" => OnContentBlockDelta(parse(data));
        case "message_delta" => OnMessageDelta(parse(data));
        case "message_stop" =>
          EmitFinal();
          dst := dst + [Done];
          return Stop;
        case _ =>
      }
      return Read;
    }

    /** The read loop over the complete lines of the upstream reply. */
    method ReadLines(parse: string -> Option<Value>, lines: seq<string>) returns (next: Next)
      modifies this
      ensures var e := Until(parse, old(Current()), lines);
              Current() == e.0 && dst == old(dst) + e.1 && next == e.2
    {
      ghost var e, written := Until(parse, Current(), lines), dst;
      var i := 0;
      assert lines[0..] == lines;
      while i < |lines|
        invariant 0 <= i <= |lines|
        invariant var rest := Until(parse, Current(), lines[i..]);
                  (rest.0, dst + rest.1, rest.2) == (e.0, written + e.1, e.2)
      {
        UntilStep(parse, Current(), lines, i, dst);
        next := OnLine(parse, lines[i]);
        i := i + 1;
        if next != Read {
          return;
        }
      }
      next := Read;
    }
  }

  /** `readFails` says that after these lines reading fails with something other than the end of the reply. */
  method AnthropicSSEToOpenAISSE(parse: string -> Option<Value>, lines: seq<string>, readFails: bool)
    returns (dst: seq<Out>, err: bool)
    ensures err <==> readFails && Until(parse, START, lines).2 == Read
    ensures dst == if err then Until(parse, START, lines).1 else Transcript(parse, lines)
  {
    var t := new Translator();
    var next := t.ReadLines(parse, lines);
    RunIsUntilThenTail(parse, START, lines);
    if next == Read && readFails {
      return t.dst, true;
    }
    if next == Stop {
      return t.dst, false;
    }
    if t.stopReason != "" {
      t.EmitFinal();
    }
    return t.dst + [Done], false;
  }
}
