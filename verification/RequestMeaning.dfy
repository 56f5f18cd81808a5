/** What the request translators do, said of JSON values and texts. */
module RequestMeaning {
  import opened Json
  import opened Requests

  lemma Behind<T>(a: seq<T>, b: seq<T>, c: seq<T>)
    ensures a + (b + c) == a + b + c
  {
  }

  // ---------- The words of a content ----------

  /** The texts on lines of their own. */
  function Lines(ts: seq<string>): string {
    if ts == [] then "" else if |ts| == 1 then ts[0] else ts[0] + "\n" + Lines(ts[1..])
  }

  /** An element of a content array can be read if its type and text are strings, or missing. */
  predicate Readable(v: Value) {
    v == Null || (v.Obj? && (forall key | key in {"type", "text"} && key in v.fields ::
                               v.fields[key] == Null || v.fields[key].Str?))
  }

  /** The text of an element of type `text`. */
  function WordsOf(v: Value): seq<string> {
    if v.Obj? && "type" in v.fields && v.fields["type"] == Str("text") && "text" in v.fields
       && v.fields["text"].Str? && v.fields["text"].s != ""
    then [v.fields["text"].s] else []
  }

  function AllWords(vs: seq<Value>): seq<string> {
    if vs == [] then [] else WordsOf(vs[0]) + AllWords(vs[1..])
  }

  /** What a content says: a string itself, the words of an array that can be read, and anything else nothing. */
  function Says(content: Option<Value>): string {
    match content
    case Some(Str(s)) => s
    case Some(Arr(vs)) => if forall v | v in vs :: Readable(v) then Lines(AllWords(vs)) else ""
    case _ => ""
  }

  lemma AllWordsStep(x: Value, xs: seq<Value>)
    ensures AllWords([x] + xs) == WordsOf(x) + AllWords(xs)
  {
    assert ([x] + xs)[1..] == xs;
  }

  lemma {:induction false} AllWordsSnoc(xs: seq<Value>, x: Value)
    ensures AllWords(xs + [x]) == AllWords(xs) + WordsOf(x)
  {
    if xs == [] {
      assert [] + [x] == [x] + [];
      AllWordsStep(x, []);
      assert AllWords([]) == [];
    } else {
      var first, rest := xs[0], xs[1..];
      assert xs == [first] + rest && xs + [x] == [first] + (rest + [x]);
      AllWordsSnoc(rest, x);
      AllWordsStep(first, rest);
      AllWordsStep(first, rest + [x]);
      Behind(WordsOf(first), AllWords(rest), WordsOf(x));
    }
  }

  lemma {:induction false} LinesSnoc(ts: seq<string>, t: string)
    ensures Lines(ts + [t]) == if ts == [] then t else Lines(ts) + "\n" + t
  {
    if ts == [] {
      assert [] + [t] == [t];
    } else {
      assert (ts + [t])[1..] == ts[1..] + [t];
      LinesSnoc(ts[1..], t);
      if |ts| > 1 {
        assert ts[0] + "\n" + (Lines(ts[1..]) + "\n" + t) == (ts[0] + "\n" + Lines(ts[1..])) + "\n" + t;
      }
    }
  }

  lemma {:induction false} JoinIsLines(ts: seq<string>)
    ensures Join(ts, "\n") == Lines(ts)
  {
    if ts != [] {
      var front, last := ts[..|ts| - 1], ts[|ts| - 1];
      assert ts == front + [last];
      LinesSnoc(front, last);
      JoinIsLines(front);
    }
  }

  lemma PartIsRead(v: Value)
    ensures PartText(v).Some? <==> Readable(v)
    ensures Readable(v) ==> WordsOf(v) == if PartText(v).value != "" then [PartText(v).value] else []
  {
  }

  lemma {:induction false} PartsAreRead(vs: seq<Value>)
    requires forall v | v in vs :: Readable(v)
    ensures AllParts(vs) && PartTexts(vs) == AllWords(vs)
  {
    forall v | v in vs ensures PartText(v).Some? {
      PartIsRead(v);
    }
    if vs != [] {
      var front, last := vs[..|vs| - 1], vs[|vs| - 1];
      assert vs == front + [last] && last in vs;
      PartsAreRead(front);
      PartIsRead(last);
      AllWordsSnoc(front, last);
    }
  }

  lemma TextIsSaid(content: Option<Value>)
    ensures ExtractText(content) == Says(content)
  {
    if content.Some? && content.value.Arr? {
      var vs := content.value.items;
      if forall v | v in vs :: Readable(v) {
        PartsAreRead(vs);
        JoinIsLines(AllWords(vs));
      } else {
        var v :| v in vs && !Readable(v);
        PartIsRead(v);
        assert !AllParts(vs);
      }
    }
  }

  // ---------- From OpenAI to Anthropic ----------

  /** The texts with an empty line between them. */
  function Paragraphs(ts: seq<string>): string {
    if ts == [] then "" else if |ts| == 1 then ts[0] else ts[0] + "\n\n" + Paragraphs(ts[1..])
  }

  lemma {:induction false} ParagraphsSnoc(ts: seq<string>, t: string)
    ensures Paragraphs(ts + [t]) == if ts == [] then t else Paragraphs(ts) + "\n\n" + t
  {
    if ts == [] {
      assert [] + [t] == [t];
    } else {
      assert (ts + [t])[1..] == ts[1..] + [t];
      ParagraphsSnoc(ts[1..], t);
      if |ts| > 1 {
        var rest := Paragraphs(ts[1..]);
        assert ts[0] + "\n\n" + (rest + "\n\n" + t) == (ts[0] + "\n\n" + rest) + "\n\n" + t;
      }
    }
  }

  lemma {:induction false} JoinIsParagraphs(ts: seq<string>)
    ensures Join(ts, "\n\n") == Paragraphs(ts)
  {
    if ts != [] {
      var front, last := ts[..|ts| - 1], ts[|ts| - 1];
      assert ts == front + [last];
      ParagraphsSnoc(front, last);
      JoinIsParagraphs(front);
    }
  }

  function SystemTextOf(m: OAMessage): seq<string> {
    if m.role == "system" && Says(m.content) != "" then [Says(m.content)] else []
  }

  /** The system texts, in order, without the empty ones. */
  function SystemTexts(ms: seq<OAMessage>): seq<string> {
    if ms == [] then [] else SystemTextOf(ms[0]) + SystemTexts(ms[1..])
  }

  /** A tool call as a block; arguments that are no JSON become an empty object. */
  function CallBlock(c: Codec, tc: ToolCall): Block {
    ToolUse(tc.id, tc.name, if tc.arguments != "" && c.IsValid(tc.arguments) then tc.arguments else "{}")
  }

  function CalledBlocks(c: Codec, tcs: seq<ToolCall>): seq<Block> {
    seq(|tcs|, i requires 0 <= i < |tcs| => CallBlock(c, tcs[i]))
  }

  function Said(c: Codec, m: OAMessage): AMessage {
    if m.role == "tool" then AMessage("user", Blocks([ToolResult(m.toolCallId, Some(Str(Says(m.content))))]))
    else if m.role == "assistant" && m.toolCalls != [] then
      AMessage("assistant",
               Blocks((if Says(m.content) == "" then [] else [Text(Says(m.content))]) + CalledBlocks(c, m.toolCalls)))
    else AMessage(if m.role == "assistant" then "assistant" else "user", Plain(Says(m.content)))
  }

  function SaidOf(c: Codec, m: OAMessage): seq<AMessage> {
    if m.role == "system" then [] else [Said(c, m)]
  }

  function AllSaid(c: Codec, ms: seq<OAMessage>): seq<AMessage> {
    if ms == [] then [] else SaidOf(c, ms[0]) + AllSaid(c, ms[1..])
  }

  lemma SystemTextsStep(x: OAMessage, xs: seq<OAMessage>)
    ensures SystemTexts([x] + xs) == SystemTextOf(x) + SystemTexts(xs)
  {
    assert ([x] + xs)[1..] == xs;
  }

  lemma {:induction false} SystemTextsSnoc(xs: seq<OAMessage>, x: OAMessage)
    ensures SystemTexts(xs + [x]) == SystemTexts(xs) + SystemTextOf(x)
  {
    if xs == [] {
      assert [] + [x] == [x] + [];
      SystemTextsStep(x, []);
      assert SystemTexts([]) == [];
    } else {
      var first, rest := xs[0], xs[1..];
      assert xs == [first] + rest && xs + [x] == [first] + (rest + [x]);
      SystemTextsSnoc(rest, x);
      SystemTextsStep(first, rest);
      SystemTextsStep(first, rest + [x]);
      Behind(SystemTextOf(first), SystemTexts(rest), SystemTextOf(x));
    }
  }

  lemma AllSaidStep(c: Codec, x: OAMessage, xs: seq<OAMessage>)
    ensures AllSaid(c, [x] + xs) == SaidOf(c, x) + AllSaid(c, xs)
  {
    assert ([x] + xs)[1..] == xs;
  }

  lemma {:induction false} AllSaidSnoc(c: Codec, xs: seq<OAMessage>, x: OAMessage)
    ensures AllSaid(c, xs + [x]) == AllSaid(c, xs) + SaidOf(c, x)
  {
    if xs == [] {
      assert [] + [x] == [x] + [];
      AllSaidStep(c, x, []);
      assert AllSaid(c, []) == [];
    } else {
      var first, rest := xs[0], xs[1..];
      assert xs == [first] + rest && xs + [x] == [first] + (rest + [x]);
      AllSaidSnoc(c, rest, x);
      AllSaidStep(c, first, rest);
      AllSaidStep(c, first, rest + [x]);
      Behind(SaidOf(c, first), AllSaid(c, rest), SaidOf(c, x));
    }
  }

  lemma {:induction false} CallsAreBlocks(c: Codec, tcs: seq<ToolCall>)
    ensures ToolUseBlocks(c, tcs) == CalledBlocks(c, tcs)
  {
    if tcs != [] {
      CallsAreBlocks(c, tcs[..|tcs| - 1]);
    }
  }

  lemma MessageIsSaid(c: Codec, m: OAMessage)
    requires m.role != "system"
    ensures MessageToAnthropic(c, m) == Said(c, m)
  {
    TextIsSaid(m.content);
    CallsAreBlocks(c, m.toolCalls);
  }

  lemma {:induction false} MessagesAreSaid(c: Codec, ms: seq<OAMessage>)
    ensures MessagesToAnthropic(c, ms) == AllSaid(c, ms) && SystemParts(ms) == SystemTexts(ms)
  {
    if ms != [] {
      var front, last := ms[..|ms| - 1], ms[|ms| - 1];
      assert ms == front + [last];
      MessagesAreSaid(c, front);
      TextIsSaid(last.content);
      SystemTextsSnoc(front, last);
      AllSaidSnoc(c, front, last);
      if last.role != "system" {
        MessageIsSaid(c, last);
      }
    }
  }

  /** The whole request: what it says, to whom, and with which limits and tools. */
  lemma RequestIsSaid(c: Codec, r: OARequest)
    ensures var a := ToAnthropic(c, r);
            && a.system == Paragraphs(SystemTexts(r.messages)) && a.messages == AllSaid(c, r.messages)
            && a.maxTokens == (if r.maxTokens > 0 then r.maxTokens else 4096)
            && a.model == r.model && a.temperature == r.temperature && a.topP == r.topP
            && a.stream == r.stream && a.stopSequences == r.stop && |a.tools| == |r.tools|
            && forall i | 0 <= i < |r.tools| ::
                 a.tools[i] == ATool(r.tools[i].name, r.tools[i].description, r.tools[i].parameters)
  {
    MessagesAreSaid(c, r.messages);
    JoinIsParagraphs(SystemTexts(r.messages));
  }

  /** A request with an array for a content translates as the one with the words of the array, line by line. */
  lemma ArrayIsItsWords(c: Codec, r: OARequest, i: nat, vs: seq<Value>)
    requires i < |r.messages| && r.messages[i].content == Some(Arr(vs)) && forall v | v in vs :: Readable(v)
    ensures var plain := r.messages[i].(content := Some(Str(Lines(AllWords(vs)))));
            ToAnthropic(c, r) == ToAnthropic(c, r.(messages := r.messages[i := plain]))
  {
    var m := r.messages[i];
    var plain := m.(content := Some(Str(Lines(AllWords(vs)))));
    SameSaid(c, r.messages, i, plain);
    MessagesAreSaid(c, r.messages);
    MessagesAreSaid(c, r.messages[i := plain]);
  }

  lemma {:induction false} SameSaid(c: Codec, ms: seq<OAMessage>, i: nat, m: OAMessage)
    requires i < |ms| && m == ms[i].(content := m.content) && Says(m.content) == Says(ms[i].content)
    ensures AllSaid(c, ms[i := m]) == AllSaid(c, ms) && SystemTexts(ms[i := m]) == SystemTexts(ms)
  {
    if i == 0 {
      assert ms[i := m][1..] == ms[1..];
    } else {
      assert ms[i := m][1..] == ms[1..][i - 1 := m];
      SameSaid(c, ms[1..], i - 1, m);
    }
  }

  /** The tool choices that have a meaning to Anthropic. */
  lemma ToolChoices(name: string)
    requires name != ""
    ensures ToolChoiceOAToAnth(Str("auto")) == Some(Obj(map["type" := Str("auto")]))
    ensures ToolChoiceOAToAnth(Str("required")) == Some(Obj(map["type" := Str("any")]))
    ensures ToolChoiceOAToAnth(Obj(map["type" := Str("function"), "function" := Obj(map["name" := Str(name)])]))
         == Some(Obj(map["type" := Str("tool"), "name" := Str(name)]))
  {
  }

  /** An object that asks for a tool by name. */
  predicate NamesTool(top: map<string, Value>, name: string) {
    && name != "" && "type" in top && top["type"] == Str("function")
    && "function" in top && top["function"].Obj?
    && "name" in top["function"].fields && top["function"].fields["name"] == Str(name)
  }

  /** Any other choice has no meaning to Anthropic and is left out. */
  lemma OtherChoices(raw: Value)
    ensures ToolChoiceOAToAnth(raw).Some?
            <==> raw == Str("auto") || raw == Str("required")
                 || (raw.Obj? && exists name :: NamesTool(raw.fields, name))
    ensures forall name | raw.Obj? && NamesTool(raw.fields, name) ::
              ToolChoiceOAToAnth(raw) == Some(Obj(map["type" := Str("tool"), "name" := Str(name)]))
  {
    if raw.Obj? && ToolChoiceOAToAnth(raw).Some? {
      var name := raw.fields["function"].fields["name"].s;
      assert NamesTool(raw.fields, name);
    }
  }

  // ---------- From Anthropic to OpenAI ----------

  function BlockWordsOf(b: Block): seq<string> {
    if b.Text? && b.text != "" then [b.text] else []
  }

  function BlockWords(bs: seq<Block>): seq<string> {
    if bs == [] then [] else BlockWordsOf(bs[0]) + BlockWords(bs[1..])
  }

  function UsedToolOf(b: Block): seq<ToolCall> {
    if b.ToolUse? then [ToolCall(b.id, "function", b.name, if b.input == "" then "{}" else b.input)] else []
  }

  function UsedTools(bs: seq<Block>): seq<ToolCall> {
    if bs == [] then [] else UsedToolOf(bs[0]) + UsedTools(bs[1..])
  }

  /** What a tool result says: a string itself, the texts of an array of blocks line by line, anything else as it is
      written, and nothing when it is missing or `null`. */
  function ResultSays(result: Option<Value>, rawText: Value -> string): string {
    match result
    case None => ""
    case Some(Null) => ""
    case Some(Str(s)) => s
    case Some(v) =>
      if v.Arr? && DecodeBlocks(v.items, rawText).Some?
      then Lines(BlockWords(DecodeBlocks(v.items, rawText).value)) else rawText(v)
  }

  function ResultOf(b: Block, rawText: Value -> string): seq<OAMessage> {
    if !b.ToolResult? then []
    else [OAMessage("tool", Some(Str(ResultSays(b.result, rawText))), "", [], b.toolUseId, "")]
  }

  function ToolResults(bs: seq<Block>, rawText: Value -> string): seq<OAMessage> {
    if bs == [] then [] else ResultOf(bs[0], rawText) + ToolResults(bs[1..], rawText)
  }

  /** An element of an array of blocks can be read if its texts are strings and its flag a truth value, or missing. */
  predicate ReadableBlock(v: Value) {
    v == Null
    || (v.Obj?
        && (forall key | key in {"type", "text", "thinking", "id", "name", "tool_use_id"} && key in v.fields ::
              v.fields[key] == Null || v.fields[key].Str?)
        && ("is_error" in v.fields ==> v.fields["is_error"] == Null || v.fields["is_error"].Bool?))
  }

  /** A string member, empty when it is missing. */
  function Of(v: Value, key: string): string {
    if v.Obj? && key in v.fields && v.fields[key].Str? then v.fields[key].s else ""
  }

  /** The tool choices back: `auto`, `any` and `tool`; any other is left out. */
  lemma ToolChoicesBack(raw: Value)
    ensures var kind, named := Of(raw, "type"), raw.Obj? && "name" in raw.fields;
            var readable := named ==> raw.fields["name"] == Null || raw.fields["name"].Str?;
            && (raw.Obj? && readable && kind == "auto" ==> ToolChoiceAnthToOA(raw) == Some(Str("auto")))
            && (raw.Obj? && readable && kind == "any" ==> ToolChoiceAnthToOA(raw) == Some(Str("required")))
            && (raw.Obj? && readable && kind == "tool" ==>
                  ToolChoiceAnthToOA(raw)
                  == Some(Obj(map["type" := Str("function"),
                                  "function" := Obj(map["name" := Str(Of(raw, "name"))])])))
            && (!raw.Obj? || !readable || kind !in {"auto", "any", "tool"} ==> ToolChoiceAnthToOA(raw) == None)
  {
  }

  /** What is read of a block of each type. */
  lemma BlockIsDecoded(v: Value, rawText: Value -> string)
    ensures DecodeBlock(v, rawText).Some? <==> ReadableBlock(v)
    ensures ReadableBlock(v) ==>
              var b := DecodeBlock(v, rawText).value;
              && (Of(v, "type") == "text" ==> b == Text(Of(v, "text")))
              && (Of(v, "type") == "thinking" ==> b == Thinking(Of(v, "thinking")))
              && (Of(v, "type") == "tool_use" ==>
                    b == ToolUse(Of(v, "id"), Of(v, "name"),
                                 if "input" in v.fields then rawText(v.fields["input"]) else ""))
              && (Of(v, "type") == "tool_result" ==>
                    b == ToolResult(Of(v, "tool_use_id"),
                                    if "content" in v.fields then Some(v.fields["content"]) else None))
              && (Of(v, "type") !in {"text", "thinking", "tool_use", "tool_result"} ==>
                    b == OtherBlock(Of(v, "type")))
  {
  }

  /** A content: an array of blocks that can all be read, in order; or else its text. */
  lemma ContentIsRead(content: Option<Value>, rawText: Value -> string)
    ensures var out := ReadContent(content, rawText);
            && (content == None || content == Some(Null) ==> out == Plain(""))
            && (content.Some? && content.value.Str? ==> out == Plain(content.value.s))
            && (content.Some? && content.value.Arr? && (forall v | v in content.value.items :: ReadableBlock(v)) ==>
                  out.Blocks? && |out.blocks| == |content.value.items|
                  && forall i | 0 <= i < |out.blocks| ::
                       DecodeBlock(content.value.items[i], rawText) == Some(out.blocks[i]))
            && (content.Some? && content.value.Arr? && (exists v | v in content.value.items :: !ReadableBlock(v)) ==>
                  out == Plain(rawText(content.value)))
            && (content.Some? && !content.value.Null? && !content.value.Str? && !content.value.Arr? ==>
                  out == Plain(rawText(content.value)))
  {
    if content.Some? && content.value.Arr? {
      BlocksAreDecoded(content.value.items, rawText);
    }
  }

  lemma {:induction false} BlocksAreDecoded(vs: seq<Value>, rawText: Value -> string)
    ensures var bs := DecodeBlocks(vs, rawText);
            && (bs.Some? <==> forall v | v in vs :: ReadableBlock(v))
            && (bs.Some? ==> |bs.value| == |vs|
                             && forall i | 0 <= i < |vs| :: DecodeBlock(vs[i], rawText) == Some(bs.value[i]))
  {
    if vs != [] {
      var front, last := vs[..|vs| - 1], vs[|vs| - 1];
      BlocksAreDecoded(front, rawText);
      BlockIsDecoded(last, rawText);
      assert forall v :: v in vs <==> v in front || v == last;
    }
  }

  lemma BlockWordsStep(x: Block, xs: seq<Block>)
    ensures BlockWords([x] + xs) == BlockWordsOf(x) + BlockWords(xs)
  {
    assert ([x] + xs)[1..] == xs;
  }

  lemma {:induction false} BlockWordsSnoc(xs: seq<Block>, x: Block)
    ensures BlockWords(xs + [x]) == BlockWords(xs) + BlockWordsOf(x)
  {
    if xs == [] {
      assert [] + [x] == [x] + [];
      BlockWordsStep(x, []);
      assert BlockWords([]) == [];
    } else {
      var first, rest := xs[0], xs[1..];
      assert xs == [first] + rest && xs + [x] == [first] + (rest + [x]);
      BlockWordsSnoc(rest, x);
      BlockWordsStep(first, rest);
      BlockWordsStep(first, rest + [x]);
      Behind(BlockWordsOf(first), BlockWords(rest), BlockWordsOf(x));
    }
  }

  lemma UsedToolsStep(x: Block, xs: seq<Block>)
    ensures UsedTools([x] + xs) == UsedToolOf(x) + UsedTools(xs)
  {
    assert ([x] + xs)[1..] == xs;
  }

  lemma {:induction false} UsedToolsSnoc(xs: seq<Block>, x: Block)
    ensures UsedTools(xs + [x]) == UsedTools(xs) + UsedToolOf(x)
  {
    if xs == [] {
      assert [] + [x] == [x] + [];
      UsedToolsStep(x, []);
      assert UsedTools([]) == [];
    } else {
      var first, rest := xs[0], xs[1..];
      assert xs == [first] + rest && xs + [x] == [first] + (rest + [x]);
      UsedToolsSnoc(rest, x);
      UsedToolsStep(first, rest);
      UsedToolsStep(first, rest + [x]);
      Behind(UsedToolOf(first), UsedTools(rest), UsedToolOf(x));
    }
  }

  lemma ToolResultsStep(b: Block, bs: seq<Block>, rawText: Value -> string)
    ensures ToolResults([b] + bs, rawText) == ResultOf(b, rawText) + ToolResults(bs, rawText)
  {
    assert ([b] + bs)[1..] == bs;
  }

  lemma {:induction false} ToolResultsSnoc(bs: seq<Block>, b: Block, rawText: Value -> string)
    ensures ToolResults(bs + [b], rawText) == ToolResults(bs, rawText) + ResultOf(b, rawText)
  {
    if bs == [] {
      assert [] + [b] == [b] + [];
      ToolResultsStep(b, [], rawText);
      assert ToolResults([], rawText) == [];
    } else {
      var first, rest := bs[0], bs[1..];
      assert bs == [first] + rest && bs + [b] == [first] + (rest + [b]);
      ToolResultsSnoc(rest, b, rawText);
      ToolResultsStep(first, rest, rawText);
      ToolResultsStep(first, rest + [b], rawText);
      Behind(ResultOf(first, rawText), ToolResults(rest, rawText), ResultOf(b, rawText));
    }
  }

  lemma {:induction false} TextsAreWords(bs: seq<Block>)
    ensures BlockTexts(bs) == BlockWords(bs)
  {
    if bs != [] {
      var front, last := bs[..|bs| - 1], bs[|bs| - 1];
      assert bs == front + [last];
      TextsAreWords(front);
      BlockWordsSnoc(front, last);
    }
  }

  lemma ResultIsSaid(result: Option<Value>, rawText: Value -> string)
    ensures ExtractToolResultText(result, rawText) == ResultSays(result, rawText)
  {
    if result.Some? && result.value.Arr? {
      var blocks := DecodeBlocks(result.value.items, rawText);
      if blocks.Some? {
        TextsAreWords(blocks.value);
        JoinIsLines(BlockWords(blocks.value));
      }
    }
  }

  lemma {:induction false} BlocksAreUsed(bs: seq<Block>, rawText: Value -> string)
    ensures BlockCalls(bs) == UsedTools(bs) && BlockResults(bs, rawText) == ToolResults(bs, rawText)
  {
    if bs != [] {
      var front, last := bs[..|bs| - 1], bs[|bs| - 1];
      assert bs == front + [last];
      BlocksAreUsed(front, rawText);
      UsedToolsSnoc(front, last);
      ToolResultsSnoc(front, last, rawText);
      if last.ToolResult? {
        ResultIsSaid(last.result, rawText);
      }
    }
  }

  /** A message of blocks: its tool results, each a message, then one message with its words and tool calls. */
  lemma BlocksAreSaid(role: string, bs: seq<Block>, rawText: Value -> string)
    ensures var words, calls := BlockWords(bs), UsedTools(bs);
            MessageToOpenAI(AMessage(role, Blocks(bs)), rawText)
            == ToolResults(bs, rawText)
               + if words == [] && calls == [] then []
                 else [OAMessage(role, if words == [] then None else Some(Str(Lines(words))), "", calls, "", "")]
  {
    TextsAreWords(bs);
    BlocksAreUsed(bs, rawText);
    JoinIsLines(BlockWords(bs));
  }

  /** The whole request back: the system text as a first message, the messages in order, limits and tools. */
  lemma RequestIsSaidBack(r: ARequest<AMessage>, rawText: Value -> string)
    ensures var o := ToOpenAI(r, rawText);
            && o.messages == (if r.system == "" then [] else [OAMessage("system", Some(Str(r.system)), "", [], "", "")])
                             + MessagesToOpenAI(r.messages, rawText)
            && o.model == r.model && o.maxTokens == r.maxTokens && o.temperature == r.temperature
            && o.topP == r.topP && o.stream == r.stream && o.stop == r.stopSequences && |o.tools| == |r.tools|
            && forall i | 0 <= i < |r.tools| ::
                 o.tools[i] == OATool("function", r.tools[i].name, r.tools[i].description, r.tools[i].inputSchema)
    ensures forall role, text ::
              MessageToOpenAI(AMessage(role, Plain(text)), rawText)
              == [OAMessage(role, Some(Str(text)), "", [], "", "")]
    ensures MessagesToOpenAI([], rawText) == []
    ensures forall ms, m: AMessage ::
              MessagesToOpenAI(ms + [m], rawText) == MessagesToOpenAI(ms, rawText) + MessageToOpenAI(m, rawText)
  {
    forall ms, m: AMessage
      ensures MessagesToOpenAI(ms + [m], rawText) == MessagesToOpenAI(ms, rawText) + MessageToOpenAI(m, rawText)
    {
      assert (ms + [m])[..|ms|] == ms;
    }
  }
}
