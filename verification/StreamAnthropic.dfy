/** The translation of an OpenAI stream into Anthropic events, against the batch translation of the whole answer. */
module StreamAnthropic {
  import opened Json
  import opened Responses

  /** One entry of a chunk's `choices`: absent text is empty, an absent finish reason is `None`. */
  datatype Choice = Choice(content: string, reasoning: string, finish: Option<string>)

  datatype Chunk = Chunk(choices: seq<Choice>, usage: Option<Usage>)

  datatype Event =
    | BlockStart
    | TextDelta(text: string)
    | BlockStop
    | MessageDelta(stopReason: string, usage: Usage)
    | MessageStop

  // ---------- Lines ----------

  const DATA_PREFIX := "data: "

  /** White space as Unicode has it. */
  predicate Space(c: char) {
    var r := c as int;
    || 9 <= r <= 13 || r == 0x20 || r == 0x85 || r == 0xA0 || r == 0x1680 || 0x2000 <= r <= 0x200A
    || r == 0x2028 || r == 0x2029 || r == 0x202F || r == 0x205F || r == 0x3000
  }

  function TrimSpace(s: string): string {
    if s != "" && Space(s[0]) then TrimSpace(s[1..])
    else if s != "" && Space(s[|s| - 1]) then TrimSpace(s[..|s| - 1])
    else s
  }

  /** What a line carries. */
  datatype Payload = Skip | End | Data(chunk: Chunk)

  function PayloadOf(decode: string -> Option<Chunk>, raw: string): Payload {
    var line := TrimSpace(raw);
    if line == "" || !(DATA_PREFIX <= line) then Skip
    else if line[|DATA_PREFIX|..] == "[DONE]" then End
    else match decode(line[|DATA_PREFIX|..])
         case None => Skip
         case Some(chunk) => Data(chunk)
  }

  /** The chunks read up to the end marker: other lines and undecodable payloads are passed over. */
  function Chunks(decode: string -> Option<Chunk>, lines: seq<string>): seq<Chunk> {
    if lines == [] then []
    else match PayloadOf(decode, lines[0])
         case Skip => Chunks(decode, lines[1..])
         case End => []
         case Data(chunk) => [chunk] + Chunks(decode, lines[1..])
  }

  // ---------- The translation ----------

  datatype State = State(reasoning: string, hasContent: bool, usage: Usage)

  const START := State("", false, Usage(0, 0))

  function Absorb(st: State, c: Choice): State {
    st.(reasoning := st.reasoning + c.reasoning, hasContent := st.hasContent || c.content != "")
  }

  function OnChoice(st: State, c: Choice): seq<Event> {
    var st' := Absorb(st, c);
    (if c.content != "" then [TextDelta(c.content)] else [])
    + (if c.finish.None? then []
       else
         (if !st'.hasContent && st'.reasoning != "" then [TextDelta(st'.reasoning)] else [])
         + [BlockStop, MessageDelta(MapFinishReason(c.finish.value), st.usage), MessageStop])
  }

  function OnChoices(st: State, cs: seq<Choice>): (State, seq<Event>)
    decreases |cs|
  {
    if cs == [] then (st, [])
    else
      var (st', out) := OnChoices(Absorb(st, cs[0]), cs[1..]);
      (st', OnChoice(st, cs[0]) + out)
  }

  function OnChunk(st: State, c: Chunk): (State, seq<Event>) {
    OnChoices(if c.usage.Some? then st.(usage := c.usage.value) else st, c.choices)
  }

  function Run(st: State, chunks: seq<Chunk>): seq<Event>
    decreases |chunks|
  {
    if chunks == [] then []
    else
      var (st', out) := OnChunk(st, chunks[0]);
      out + Run(st', chunks[1..])
  }

  function Transcript(chunks: seq<Chunk>): seq<Event> {
    [BlockStart] + Run(START, chunks)
  }

  function Onward(decode: string -> Option<Chunk>, p: Payload, rest: seq<string>, st: State,
                  w: seq<Event>): seq<Event> {
    match p
    case Skip => w + Run(st, Chunks(decode, rest))
    case End => w
    case Data(c) => w + OnChunk(st, c).1 + Run(OnChunk(st, c).0, Chunks(decode, rest))
  }

  lemma LineByLine(decode: string -> Option<Chunk>, lines: seq<string>, i: nat, st: State, w: seq<Event>)
    requires i < |lines|
    ensures w + Run(st, Chunks(decode, lines[i..]))
         == Onward(decode, PayloadOf(decode, lines[i]), lines[i + 1..], st, w)
  {
    var rest := Chunks(decode, lines[i + 1..]);
    assert lines[i..][1..] == lines[i + 1..];
    match PayloadOf(decode, lines[i]) {
      case Skip => assert [] + rest == rest;
      case End => assert w + [] == w;
      case Data(c) =>
        assert ([c] + rest)[1..] == rest;
        var (next, out) := OnChunk(st, c);
        assert w + (out + Run(next, rest)) == w + out + Run(next, rest);
    }
  }

  /** The read loop, with its inner loop over the choices of a chunk. `readFails` says that after these lines reading
      fails with something other than the end of the reply: an error if no end marker came first. */
  method StreamAnthropicResponse(decode: string -> Option<Chunk>, lines: seq<string>, readFails: bool)
    returns (w: seq<Event>, err: bool)
    ensures w == Transcript(Chunks(decode, lines))
    ensures err <==> readFails && forall i | 0 <= i < |lines| :: !PayloadOf(decode, lines[i]).End?
  {
    w := [BlockStart];
    var reasoningBuf := "";
    var hasContent := false;
    var inputTokens, outputTokens := 0, 0;
    var i := 0;
    assert lines[0..] == lines;
    while i < |lines|
      invariant 0 <= i <= |lines|
      invariant w + Run(State(reasoningBuf, hasContent, Usage(inputTokens, outputTokens)), Chunks(decode, lines[i..]))
             == Transcript(Chunks(decode, lines))
      invariant forall k | 0 <= k < i :: !PayloadOf(decode, lines[k]).End?
    {
      LineByLine(decode, lines, i, State(reasoningBuf, hasContent, Usage(inputTokens, outputTokens)), w);
      var line := TrimSpace(lines[i]);
      i := i + 1;
      if line == "" || !(DATA_PREFIX <= line) {
        continue;
      }
      var data := line[|DATA_PREFIX|..];
      if data == "[DONE]" {
        return w, false;
      }
      var chunk := decode(data);
      if chunk.None? {
        continue;
      }
      if chunk.value.usage.Some? {
        inputTokens := chunk.value.usage.value.input;
        outputTokens := chunk.value.usage.value.output;
      }
      var out;
      reasoningBuf, hasContent, out :=
        WriteChoices(chunk.value.choices, reasoningBuf, hasContent, inputTokens, outputTokens);
      w := w + out;
    }
    err := readFails;
  }

  method WriteChoice(choice: Choice, reasoning: string, content: bool, inputTokens: int, outputTokens: int)
    returns (reasoningBuf: string, hasContent: bool, w: seq<Event>)
    ensures var st := State(reasoning, content, Usage(inputTokens, outputTokens));
            State(reasoningBuf, hasContent, st.usage) == Absorb(st, choice) && w == OnChoice(st, choice)
  {
    reasoningBuf, hasContent, w := reasoning, content, [];
    if choice.content != "" {
      hasContent := true;
      w := w + [TextDelta(choice.content)];
    }
    if choice.reasoning != "" {
      reasoningBuf := reasoningBuf + choice.reasoning;
    }
    assert reasoning + "" == reasoning;
    if choice.finish.Some? {
      var stopReason := MapFinishReason(choice.finish.value);
      if !hasContent && |reasoningBuf| > 0 {
        w := w + [TextDelta(reasoningBuf)];
      }
      w := w + [BlockStop, MessageDelta(stopReason, Usage(inputTokens, outputTokens)), MessageStop];
    }
  }

  method WriteChoices(choices: seq<Choice>, reasoning: string, content: bool, inputTokens: int, outputTokens: int)
    returns (reasoningBuf: string, hasContent: bool, w: seq<Event>)
    ensures var usage := Usage(inputTokens, outputTokens);
            var r := OnChoices(State(reasoning, content, usage), choices);
            r.0 == State(reasoningBuf, hasContent, usage) && r.1 == w
  {
    reasoningBuf, hasContent, w := reasoning, content, [];
    ghost var usage := Usage(inputTokens, outputTokens);
    ghost var goal := OnChoices(State(reasoning, content, usage), choices);
    var i := 0;
    while i < |choices|
      invariant 0 <= i <= |choices|
      invariant var rest := OnChoices(State(reasoningBuf, hasContent, usage), choices[i..]);
                rest.0 == goal.0 && w + rest.1 == goal.1
    {
      assert choices[i..][1..] == choices[i + 1..];
      var out;
      reasoningBuf, hasContent, out := WriteChoice(choices[i], reasoningBuf, hasContent, inputTokens, outputTokens);
      w := w + out;
      i := i + 1;
    }
    assert choices[i..] == [];
  }

  // ---------- The batch translation ----------

  /** The first choice of a whole OpenAI answer, with the answer's usage. */
  datatype Answer = Answer(content: string, reasoning: string, finishReason: string, usage: Option<Usage>)

  datatype AnthropicAnswer = AnthropicAnswer(text: string, stopReason: string, usage: Option<Usage>)

  function TranslateOpenAIToAnthropic(a: Answer): AnthropicAnswer {
    AnthropicAnswer(if a.content == "" then a.reasoning else a.content, MapFinishReason(a.finishReason), a.usage)
  }

  function Content(cs: seq<Choice>): string {
    if cs == [] then "" else cs[0].content + Content(cs[1..])
  }

  function Reasoning(cs: seq<Choice>): string {
    if cs == [] then "" else cs[0].reasoning + Reasoning(cs[1..])
  }

  predicate Open(cs: seq<Choice>) {
    forall c | c in cs :: c.finish.None?
  }

  // ---------- What a client of the events accumulates ----------

  function TextOf(out: seq<Event>): string {
    if out == [] then "" else (if out[0].TextDelta? then out[0].text else "") + TextOf(out[1..])
  }

  /** The stop reason and usage of the last message delta. */
  function LastDelta(out: seq<Event>): Option<Event> {
    if out == [] then None
    else
      var later := LastDelta(out[1..]);
      if later.Some? then later else if out[0].MessageDelta? then Some(out[0]) else None
  }

  lemma {:induction false} OutAppend(a: seq<Event>, b: seq<Event>)
    ensures TextOf(a + b) == TextOf(a) + TextOf(b)
    ensures LastDelta(a + b) == if LastDelta(b).Some? then LastDelta(b) else LastDelta(a)
  {
    if a == [] {
      assert a + b == b;
    } else {
      assert (a + b)[1..] == a[1..] + b;
      OutAppend(a[1..], b);
    }
  }

  // ---------- One finish reason ----------

  function Flat(chunks: seq<Chunk>): seq<Choice> {
    if chunks == [] then [] else chunks[0].choices + Flat(chunks[1..])
  }

  function LastUsage(u: Usage, chunks: seq<Chunk>): Usage
    decreases |chunks|
  {
    if chunks == [] then u
    else LastUsage(if chunks[0].usage.Some? then chunks[0].usage.value else u, chunks[1..])
  }

  lemma ChoiceOut(st: State, c: Choice)
    ensures var st', out := Absorb(st, c), OnChoice(st, c);
            && TextOf(out) == c.content + (if c.finish.Some? && !st'.hasContent then st'.reasoning else "")
            && LastDelta(out)
               == if c.finish.Some? then Some(MessageDelta(MapFinishReason(c.finish.value), st.usage)) else None
  {
    var st' := Absorb(st, c);
    var text := if c.content != "" then [TextDelta(c.content)] else [];
    assert TextOf(text) == c.content && LastDelta(text) == None by {
      assert text == [] || text[1..] == [];
    }
    if c.finish.Some? {
      var late := if !st'.hasContent && st'.reasoning != "" then [TextDelta(st'.reasoning)] else [];
      var delta := MessageDelta(MapFinishReason(c.finish.value), st.usage);
      var end := [BlockStop, delta, MessageStop];
      EndOut(delta);
      assert TextOf(late) == (if !st'.hasContent then st'.reasoning else "") && LastDelta(late) == None by {
        assert late == [] || late[1..] == [];
      }
      OutAppend(late, end);
      OutAppend(text, late + end);
    } else {
      OutAppend(text, []);
    }
  }

  lemma EndOut(delta: Event)
    requires delta.MessageDelta?
    ensures TextOf([BlockStop, delta, MessageStop]) == "" && LastDelta([BlockStop, delta, MessageStop]) == Some(delta)
  {
    var stop := [MessageStop];
    assert stop[1..] == [] && TextOf(stop) == "" && LastDelta(stop) == None;
    var two := [delta, MessageStop];
    assert two[1..] == stop && TextOf(two) == "" && LastDelta(two) == Some(delta);
    assert [BlockStop, delta, MessageStop][1..] == two;
  }

  /** Choices without a finish reason only pass their text on. */
  lemma OpenChoice(st: State, c: Choice, cs: seq<Choice>)
    requires c.finish.None?
    ensures TextOf(OnChoices(st, [c] + cs).1) == c.content + TextOf(OnChoices(Absorb(st, c), cs).1)
    ensures LastDelta(OnChoices(st, [c] + cs).1) == LastDelta(OnChoices(Absorb(st, c), cs).1)
    ensures OnChoices(st, [c] + cs).0 == OnChoices(Absorb(st, c), cs).0
  {
    assert ([c] + cs)[1..] == cs;
    ChoiceOut(st, c);
    OutAppend(OnChoice(st, c), OnChoices(Absorb(st, c), cs).1);
    assert c.content + "" == c.content;
  }

  lemma {:induction false} OpenChoices(st: State, cs: seq<Choice>)
    requires Open(cs)
    ensures var r := OnChoices(st, cs);
            && TextOf(r.1) == Content(cs) && LastDelta(r.1) == None
            && r.0 == State(st.reasoning + Reasoning(cs), st.hasContent || Content(cs) != "", st.usage)
    decreases |cs|
  {
    if cs == [] {
      assert st.reasoning + "" == st.reasoning;
    } else {
      var c, rest := cs[0], cs[1..];
      assert cs == [c] + rest && c in cs && forall x | x in rest :: x in cs;
      OpenChoices(Absorb(st, c), rest);
      OpenChoice(st, c, rest);
      Assoc(st.reasoning, c.reasoning, Reasoning(rest));
    }
  }

  lemma {:induction false} TextsAppend(a: seq<Choice>, b: seq<Choice>)
    ensures Content(a + b) == Content(a) + Content(b) && Reasoning(a + b) == Reasoning(a) + Reasoning(b)
  {
    if a == [] {
      assert a + b == b;
    } else {
      assert (a + b)[1..] == a[1..] + b;
      TextsAppend(a[1..], b);
    }
  }

  /** The state behind chunks without a finish reason. */
  function After(st: State, chunks: seq<Chunk>): State {
    var cs := Flat(chunks);
    State(st.reasoning + Reasoning(cs), st.hasContent || Content(cs) != "", LastUsage(st.usage, chunks))
  }

  lemma Assoc(a: string, b: string, c: string)
    ensures a + b + c == a + (b + c)
  {
  }

  lemma FlatCons(c: Chunk, rest: seq<Chunk>)
    ensures Flat([c] + rest) == c.choices + Flat(rest)
    ensures LastUsage(Usage(0, 0), []) == Usage(0, 0)
    ensures forall u :: LastUsage(u, [c] + rest) == LastUsage(if c.usage.Some? then c.usage.value else u, rest)
  {
    assert ([c] + rest)[1..] == rest;
  }

  lemma AfterStep(st: State, c: Chunk, rest: seq<Chunk>, mid: State)
    requires mid == State(st.reasoning + Reasoning(c.choices), st.hasContent || Content(c.choices) != "",
                          if c.usage.Some? then c.usage.value else st.usage)
    ensures After(mid, rest) == After(st, [c] + rest)
    ensures Content(Flat([c] + rest)) == Content(c.choices) + Content(Flat(rest))
  {
    FlatCons(c, rest);
    var flat := Flat(rest);
    TextsAppend(c.choices, flat);
    Assoc(st.reasoning, Reasoning(c.choices), Reasoning(flat));
  }

  /** Chunks without a finish reason pass their text on and leave the rest of the stream to the state they reach. */
  lemma {:induction false} OpenRun(st: State, chunks: seq<Chunk>, more: seq<Chunk>)
    requires Open(Flat(chunks))
    ensures TextOf(Run(st, chunks + more)) == Content(Flat(chunks)) + TextOf(Run(After(st, chunks), more))
    ensures LastDelta(Run(st, chunks + more)) == LastDelta(Run(After(st, chunks), more))
    decreases |chunks|
  {
    if chunks == [] {
      assert chunks + more == more;
      assert st.reasoning + "" == st.reasoning;
    } else {
      var c, rest := chunks[0], chunks[1..];
      assert chunks == [c] + rest && chunks + more == [c] + (rest + more);
      OpenChunk(st, c, rest);
      OpenRun(OnChunk(st, c).0, rest, more);
      OpenStep(st, c, rest, more);
    }
  }

  lemma OpenStep(st: State, c: Chunk, rest: seq<Chunk>, more: seq<Chunk>)
    requires Open(Flat([c] + rest))
    requires TextOf(Run(OnChunk(st, c).0, rest + more))
          == Content(Flat(rest)) + TextOf(Run(After(OnChunk(st, c).0, rest), more))
    ensures TextOf(Run(st, [c] + (rest + more))) == Content(Flat([c] + rest)) + TextOf(Run(After(st, [c] + rest), more))
    ensures LastDelta(Run(st, [c] + (rest + more))) == LastDelta(Run(OnChunk(st, c).0, rest + more))
  {
    OpenChunk(st, c, rest);
    RunCons(st, c, rest + more);
    Assoc(Content(c.choices), Content(Flat(rest)), TextOf(Run(After(st, [c] + rest), more)));
  }

  lemma RunCons(st: State, c: Chunk, rest: seq<Chunk>)
    ensures var r := OnChunk(st, c);
            && TextOf(Run(st, [c] + rest)) == TextOf(r.1) + TextOf(Run(r.0, rest))
            && LastDelta(Run(st, [c] + rest))
               == if LastDelta(Run(r.0, rest)).Some? then LastDelta(Run(r.0, rest)) else LastDelta(r.1)
  {
    assert ([c] + rest)[1..] == rest;
    OutAppend(OnChunk(st, c).1, Run(OnChunk(st, c).0, rest));
  }

  lemma OpenChunk(st: State, c: Chunk, rest: seq<Chunk>)
    requires Open(Flat([c] + rest))
    ensures Open(Flat(rest)) && TextOf(OnChunk(st, c).1) == Content(c.choices) && LastDelta(OnChunk(st, c).1) == None
    ensures After(OnChunk(st, c).0, rest) == After(st, [c] + rest)
    ensures Content(Flat([c] + rest)) == Content(c.choices) + Content(Flat(rest))
  {
    FlatCons(c, rest);
    assert forall x | x in c.choices || x in Flat(rest) :: x in Flat([c] + rest);
    OpenChoices(if c.usage.Some? then st.(usage := c.usage.value) else st, c.choices);
    AfterStep(st, c, rest, OnChunk(st, c).0);
  }

  /** A stream that finishes once: chunks before, the chunk with the finish reason, chunks after. */
  datatype Stream = Stream(before: seq<Chunk>, last: Chunk, after: seq<Chunk>) {
    predicate FinishesOnce() {
      Open(Flat(before)) && |last.choices| == 1 && last.choices[0].finish.Some? && Open(Flat(after))
    }

    function All(): seq<Chunk> {
      before + ([last] + after)
    }

    function UpToFinish(): seq<Choice> {
      Flat(before) + last.choices
    }

    /** The answer the upstream spelled out, as a batch reply would carry it; `usage` is what the reply reports. */
    function Spelled(usage: Option<Usage>): Answer
      requires FinishesOnce()
    {
      Answer(Content(UpToFinish()) + Content(Flat(after)), Reasoning(UpToFinish()) + Reasoning(Flat(after)),
             last.choices[0].finish.value, usage)
    }
  }

  /** The text, stop reason and usage of the emitted events, for every stream that finishes once. */
  lemma FinishedStream(s: Stream)
    requires s.FinishesOnce()
    ensures var out := Transcript(s.All());
            && TextOf(out)
               == (if Content(s.UpToFinish()) == "" then Reasoning(s.UpToFinish()) else Content(s.UpToFinish()))
                  + Content(Flat(s.after))
            && LastDelta(out) == Some(MessageDelta(MapFinishReason(s.last.choices[0].finish.value),
                                                   LastUsage(Usage(0, 0), s.before + [s.last])))
  {
    var c, tail := s.last.choices[0], [s.last] + s.after;
    var st := After(START, s.before);
    OutAppend([BlockStart], Run(START, s.All()));
    assert [BlockStart][1..] == [];
    OpenRun(START, s.before, tail);
    FinishingChunk(st, s.last, s.after);
    TextsAppend(Flat(s.before), s.last.choices);
    SingleChoice(s.last.choices);
    UsageSnoc(START.usage, s.before, s.last);
    assert "" + Reasoning(Flat(s.before)) == Reasoning(Flat(s.before));
    Arrange(Content(Flat(s.before)), c.content, Absorb(st, c).reasoning, Content(Flat(s.after)));
  }

  lemma Arrange(c1: string, c2: string, r: string, c3: string)
    ensures c1 + (c2 + (if c1 != "" || c2 != "" then "" else r) + c3) == (if c1 + c2 == "" then r else c1 + c2) + c3
  {
    if c1 == "" && c2 == "" {
      assert c1 + (c2 + r + c3) == r + c3;
    } else {
      assert |c1 + c2| > 0;
      assert c1 + (c2 + "" + c3) == c1 + c2 + c3;
    }
  }

  lemma SingleChoice(cs: seq<Choice>)
    requires |cs| == 1
    ensures Content(cs) == cs[0].content && Reasoning(cs) == cs[0].reasoning
  {
    assert cs[1..] == [];
  }

  lemma FinishingChunk(st: State, last: Chunk, after: seq<Chunk>)
    requires |last.choices| == 1 && last.choices[0].finish.Some? && Open(Flat(after))
    ensures var c := last.choices[0];
            var st', out := Absorb(st, c), Run(st, [last] + after);
            && TextOf(out) == c.content + (if st'.hasContent then "" else st'.reasoning) + Content(Flat(after))
            && LastDelta(out) == Some(MessageDelta(MapFinishReason(c.finish.value),
                                                   if last.usage.Some? then last.usage.value else st.usage))
  {
    var c := last.choices[0];
    var named := if last.usage.Some? then st.(usage := last.usage.value) else st;
    assert last.choices == [c] && last.choices[1..] == [] && ([last] + after)[1..] == after;
    assert OnChoices(named, last.choices) == (Absorb(named, c), OnChoice(named, c) + []);
    assert OnChoice(named, c) + [] == OnChoice(named, c);
    ChoiceOut(named, c);
    var next := Absorb(named, c);
    OpenRun(next, after, []);
    assert after + [] == after;
    OutAppend(OnChoice(named, c), Run(next, after));
  }

  lemma {:induction false} UsageSnoc(u: Usage, chunks: seq<Chunk>, last: Chunk)
    ensures LastUsage(u, chunks + [last]) == if last.usage.Some? then last.usage.value else LastUsage(u, chunks)
    decreases |chunks|
  {
    if chunks == [] {
      assert ([] + [last])[1..] == [];
    } else {
      assert (chunks + [last])[1..] == chunks[1..] + [last];
      UsageSnoc(if chunks[0].usage.Some? then chunks[0].usage.value else u, chunks[1..], last);
    }
  }

  /** The streamed text is the batch text exactly when nothing that matters arrives behind the finish reason: with no
      content before it, either no content follows a reasoning, or no reasoning follows. The stop reason agrees. */
  lemma StreamAgreesWithBatch(s: Stream, usage: Option<Usage>)
    requires s.FinishesOnce()
    ensures var out, batch := Transcript(s.All()), TranslateOpenAIToAnthropic(s.Spelled(usage));
            && (TextOf(out) == batch.text <==>
                || Content(s.UpToFinish()) != ""
                || (if Content(Flat(s.after)) == "" then Reasoning(Flat(s.after)) == ""
                    else Reasoning(s.UpToFinish()) == ""))
            && LastDelta(out) == Some(MessageDelta(batch.stopReason, LastUsage(Usage(0, 0), s.before + [s.last])))
  {
    FinishedStream(s);
    var c, r := Content(s.UpToFinish()), Reasoning(s.UpToFinish());
    var c', r' := Content(Flat(s.after)), Reasoning(Flat(s.after));
    if c == "" {
      assert c + c' == c';
      if c' == "" {
        assert r + c' == r;
        assert |r + r'| == |r| + |r'|;
      } else {
        assert |r + c'| == |r| + |c'|;
        assert "" + c' == c';
      }
    }
  }

  /** With the finish reason in the final chunk, text, stop reason and usage are those of the batch translation. */
  lemma FinalChunkAgreesWithBatch(s: Stream)
    requires s.FinishesOnce() && s.after == []
    ensures var out := Transcript(s.All());
            var usage := LastUsage(Usage(0, 0), s.All());
            var batch := TranslateOpenAIToAnthropic(s.Spelled(Some(usage)));
            TextOf(out) == batch.text && LastDelta(out) == Some(MessageDelta(batch.stopReason, usage))
  {
    FinishedStream(s);
    StreamAgreesWithBatch(s, None);
    assert s.All() == s.before + [s.last];
  }

  /** A stream that never finishes forwards its content only: a reasoning-only answer is lost. */
  lemma UnfinishedStream(chunks: seq<Chunk>, finishReason: string)
    requires Open(Flat(chunks))
    ensures var out := Transcript(chunks);
            var answer := Answer(Content(Flat(chunks)), Reasoning(Flat(chunks)), finishReason, None);
            var batch := TranslateOpenAIToAnthropic(answer);
            && LastDelta(out) == None
            && (TextOf(out) == batch.text <==> Content(Flat(chunks)) != "" || Reasoning(Flat(chunks)) == "")
  {
    OutAppend([BlockStart], Run(START, chunks));
    assert [BlockStart][1..] == [] && chunks + [] == chunks;
    OpenRun(START, chunks, []);
  }

  // ---------- What the client is told ----------

  predicate TellsStop(stopReason: string, finishReason: string) {
    && (finishReason == "stop" ==> stopReason == "end_turn")
    && (finishReason == "length" ==> stopReason == "max_tokens")
    && (finishReason !in {"stop", "length"} ==> stopReason == finishReason)
  }

  /** The stop reason, in batch and in a stream that finishes once. */
  lemma StopReasonIsTold(a: Answer, s: Stream)
    requires s.FinishesOnce()
    ensures TellsStop(TranslateOpenAIToAnthropic(a).stopReason, a.finishReason)
    ensures TranslateOpenAIToAnthropic(a).usage == a.usage
    ensures TranslateOpenAIToAnthropic(a).text == if a.content == "" then a.reasoning else a.content
    ensures var d := LastDelta(Transcript(s.All()));
            d.Some? && d.value.MessageDelta? && TellsStop(d.value.stopReason, s.last.choices[0].finish.value)
  {
    FinishedStream(s);
  }

  /** Pieces of text and nothing else. */
  predicate OnlyText(out: seq<Event>) {
    forall i | 0 <= i < |out| :: out[i].TextDelta?
  }

  lemma {:induction false} OpenChoicesWriteText(st: State, cs: seq<Choice>)
    requires Open(cs)
    ensures OnlyText(OnChoices(st, cs).1)
    decreases |cs|
  {
    if cs != [] {
      assert cs[0] in cs && forall c | c in cs[1..] :: c in cs;
      OpenChoicesWriteText(Absorb(st, cs[0]), cs[1..]);
    }
  }

  lemma {:induction false} OpenChunksWriteText(st: State, chunks: seq<Chunk>, more: seq<Chunk>)
    returns (text: seq<Event>, end: State)
    requires Open(Flat(chunks))
    ensures OnlyText(text) && Run(st, chunks + more) == text + Run(end, more)
    decreases |chunks|
  {
    if chunks == [] {
      text, end := [], st;
      assert chunks + more == more && [] + Run(st, more) == Run(st, more);
    } else {
      var c, rest := chunks[0], chunks[1..];
      assert forall x | x in c.choices :: x in Flat(chunks);
      assert forall x | x in Flat(rest) :: x in Flat(chunks);
      OpenChoicesWriteText(if c.usage.Some? then st.(usage := c.usage.value) else st, c.choices);
      var (next, out) := OnChunk(st, c);
      var later;
      later, end := OpenChunksWriteText(next, rest, more);
      text := out + later;
      assert (chunks + more)[1..] == rest + more;
      assert out + (later + Run(end, more)) == text + Run(end, more);
    }
  }

  /** The chunk with the finish reason ends the message. */
  lemma FinishRuns(st: State, last: Chunk, after: seq<Chunk>) returns (own: seq<Event>, delta: Event, next: State)
    requires |last.choices| == 1 && last.choices[0].finish.Some?
    ensures Run(st, [last] + after) == own + [BlockStop, delta, MessageStop] + Run(next, after)
    ensures OnlyText(own) && delta.MessageDelta?
  {
    var c := last.choices[0];
    var named := if last.usage.Some? then st.(usage := last.usage.value) else st;
    next := Absorb(named, c);
    own := (if c.content != "" then [TextDelta(c.content)] else [])
           + if !next.hasContent && next.reasoning != "" then [TextDelta(next.reasoning)] else [];
    delta := MessageDelta(MapFinishReason(c.finish.value), named.usage);
    assert last.choices == [c] && last.choices[1..] == [] && ([last] + after)[1..] == after;
    assert OnChoices(named, last.choices) == (next, OnChoice(named, c) + []);
    assert OnChoice(named, c) + [] == own + [BlockStop, delta, MessageStop];
  }

  /** A stream that finishes once opens one block, writes text into it, closes it, and ends the message; what comes
      later is text behind the end. */
  lemma FinishedStreamIsFramed(s: Stream) returns (text: seq<Event>, delta: Event, late: seq<Event>)
    requires s.FinishesOnce()
    ensures Transcript(s.All()) == [BlockStart] + text + [BlockStop, delta, MessageStop] + late
    ensures OnlyText(text) && delta.MessageDelta? && OnlyText(late)
  {
    var before, st := OpenChunksWriteText(START, s.before, [s.last] + s.after);
    var own, next, end;
    own, delta, next := FinishRuns(st, s.last, s.after);
    assert s.after + [] == s.after;
    late, end := OpenChunksWriteText(next, s.after, []);
    assert Run(end, []) == [] && late + [] == late;
    text := before + own;
    Regroup(before, own, [BlockStop, delta, MessageStop], late);
  }

  lemma Regroup(before: seq<Event>, own: seq<Event>, end: seq<Event>, late: seq<Event>)
    ensures [BlockStart] + (before + ((own + end) + late)) == [BlockStart] + (before + own) + end + late
  {
  }

  /** A data line carries its payload, whatever white space stands around the line; other lines carry nothing. */
  lemma DataLines(decode: string -> Option<Chunk>, payload: string, line: string)
    requires payload != "" && !Space(payload[|payload| - 1])
    ensures PayloadOf(decode, "data: " + payload + "\r\n")
         == if payload == "[DONE]" then End
            else match decode(payload) case None => Skip case Some(chunk) => Data(chunk)
    ensures line != "" && line[0] !in "d \t\r\n" && !Space(line[0]) ==> PayloadOf(decode, line) == Skip
  {
    var full := "data: " + payload;
    var ended := full + "\r\n";
    assert !Space('d') && Space('\r') && Space('\n');
    assert ended[..|ended| - 1] == full + "\r" && (full + "\r")[..|full| + 1 - 1] == full;
    assert TrimSpace(ended) == TrimSpace(full + "\r") == TrimSpace(full) == full;
    assert full[6..] == payload;
    if line != "" && line[0] !in "d \t\r\n" && !Space(line[0]) {
      TrimKeepsFirst(line);
    }
  }

  lemma {:induction false} TrimKeepsFirst(line: string)
    requires line != "" && !Space(line[0])
    ensures TrimSpace(line) != "" && TrimSpace(line)[0] == line[0]
    decreases |line|
  {
    if Space(line[|line| - 1]) {
      TrimKeepsFirst(line[..|line| - 1]);
    }
  }
}
