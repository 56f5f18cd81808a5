/** What every translated stream looks like, whatever lines the upstream sends. */
module StreamFraming {
  import opened Json
  import opened Responses
  import opened StreamOpenAI

  predicate Closing(o: Out) {
    o.Delta? && (o.finish.Some? || o.usage.Some?)
  }

  /** Tool slots opened by the records written so far: a record that names the next free slot opens it. */
  function Opened(out: seq<Out>): nat {
    if out == [] then 0
    else
      var before := Opened(out[..|out| - 1]);
      var o := out[|out| - 1];
      if o.ToolDelta? && o.slot == before then before + 1 else before
  }

  /** Record `i` opens the next slot, with no arguments yet, or extends a slot opened before it. */
  predicate SlotDiscipline(out: seq<Out>, i: nat)
    requires i < |out| && out[i].ToolDelta?
  {
    var o, slots := out[i], Opened(out[..i]);
    (o.slot == slots && o.arguments == "") || (o.slot < slots && o.id.None? && o.name.None?)
  }

  /** Records of the body: no end marker, no finish reason, slots in order. */
  predicate Body(out: seq<Out>) {
    forall i: nat | i < |out| :: out[i] != Done && !Closing(out[i]) && (out[i].ToolDelta? ==> SlotDiscipline(out, i))
  }

  predicate StateAgrees(st: State, out: seq<Out>) {
    st.nextTool == Opened(out) && forall k | k in st.slots :: st.slots[k] < st.nextTool
  }

  lemma BodySnoc(out: seq<Out>, o: Out)
    requires Body(out) && o != Done && !Closing(o)
    requires o.ToolDelta? ==>
               (o.slot == Opened(out) && o.arguments == "") || (o.slot < Opened(out) && o.id.None? && o.name.None?)
    ensures Body(out + [o])
    ensures Opened(out + [o]) == if o.ToolDelta? && o.slot == Opened(out) then Opened(out) + 1 else Opened(out)
  {
    var all := out + [o];
    assert all[..|out|] == out;
    forall i: nat | i < |all|
      ensures all[i] != Done && !Closing(all[i]) && (all[i].ToolDelta? ==> SlotDiscipline(all, i))
    {
      assert all[..i] == out[..i];
      if i < |out| {
        assert all[i] == out[i];
      }
    }
  }

  /** What one line may write: nothing, or one record that opens the next slot, extends an open one, or names none. */
  predicate Advances(st: State, out: seq<Out>, st': State) {
    if out == [] then SameSlots(st, st')
    else
      && |out| == 1 && out[0] != Done && !Closing(out[0])
      && if out[0].ToolDelta? then Opens(st, out[0], st') || Extends(st, out[0], st') else SameSlots(st, st')
  }

  predicate SameSlots(st: State, st': State) {
    st'.nextTool == st.nextTool && st'.slots == st.slots
  }

  predicate Opens(st: State, o: Out, st': State)
    requires o.ToolDelta?
  {
    && o.slot == st.nextTool && o.arguments == "" && st'.nextTool == st.nextTool + 1
    && forall k | k in st'.slots :: st'.slots[k] == st.nextTool || (k in st.slots && st.slots[k] == st'.slots[k])
  }

  predicate Extends(st: State, o: Out, st': State)
    requires o.ToolDelta?
  {
    SameSlots(st, st') && o.id.None? && o.name.None? && exists k | k in st.slots :: st.slots[k] == o.slot
  }

  lemma BlockDeltaAdvances(st: State, d: BlockDelta)
    ensures Advances(st, OnBlockDelta(st, d), st)
  {
  }

  lemma MessageDeltaAdvances(st: State, d: MessageDelta)
    ensures Advances(st, [], OnMessageDelta(st, d))
  {
  }

  lemma OnDataAdvances(st: State, payload: Option<Value>)
    ensures Advances(st, OnData(st, payload).1, OnData(st, payload).0)
  {
    if st.event == "content_block_delta" {
      var delta := if payload.Some? then DecodeBlockDelta(payload.value) else None;
      if delta.Some? {
        BlockDeltaAdvances(st, delta.value);
      }
    } else if st.event == "message_delta" {
      var delta := if payload.Some? then DecodeMessageDelta(payload.value) else None;
      if delta.Some? {
        MessageDeltaAdvances(st, delta.value);
      }
    }
  }

  lemma FeedAdvances(parse: string -> Option<Value>, st: State, raw: string)
    ensures var (st', out, next) := Feed(parse, st, raw);
            if next == Stop then out == [FinalChunk(st), Done] else Advances(st, out, st')
  {
    var line := TrimRight(raw);
    if DATA_PREFIX <= line {
      OnDataAdvances(st, parse(line[|DATA_PREFIX|..]));
    }
  }

  lemma AdvanceKeepsBody(st: State, written: seq<Out>, out: seq<Out>, st': State)
    requires Body(written) && StateAgrees(st, written) && Advances(st, out, st')
    ensures Body(written + out) && StateAgrees(st', written + out)
  {
    if out == [] {
      assert written + out == written;
    } else {
      BodySnoc(written, out[0]);
      assert written + out == written + [out[0]];
    }
  }

  lemma RunStep(parse: string -> Option<Value>, st: State, lines: seq<string>, st': State, out: seq<Out>, next: Next)
    requires lines != [] && Feed(parse, st, lines[0]) == (st', out, next)
    ensures Run(parse, st, lines) == out + Onward(parse, st', next, lines[1..])
  {
    assert next == Stop ==> out + [] == out;
  }

  lemma Assoc(a: seq<Out>, b: seq<Out>, c: seq<Out>)
    ensures a + (b + c) == a + b + c
  {
  }

  /** The end of a stream: an optional closing chunk and the end marker. */
  lemma {:induction false} RunIsBodyThenEnd(parse: string -> Option<Value>, st: State, lines: seq<string>,
                                            written: seq<Out>)
    returns (body: seq<Out>, end: seq<Out>)
    requires Body(written) && StateAgrees(st, written)
    ensures written + Run(parse, st, lines) == body + end && Body(body)
    ensures end == [Done] || (|end| == 2 && end[1] == Done && Closing(end[0]))
    decreases |lines|
  {
    if lines == [] {
      body, end := written, Tail(st);
    } else {
      var (st', out, next) := Feed(parse, st, lines[0]);
      FeedAdvances(parse, st, lines[0]);
      RunStep(parse, st, lines, st', out, next);
      Assoc(written, out, Onward(parse, st', next, lines[1..]));
      match next {
        case Read =>
          AdvanceKeepsBody(st, written, out, st');
          body, end := RunIsBodyThenEnd(parse, st', lines[1..], written + out);
        case Leave =>
          AdvanceKeepsBody(st, written, out, st');
          body, end := written + out, Tail(st');
        case Stop =>
          body, end := written, out;
          assert out + [] == out;
      }
    }
  }

  predicate EndsOnce(out: seq<Out>) {
    && |out| > 0
    && (forall i | 0 <= i < |out| :: out[i] == Done <==> i == |out| - 1)
    && (forall i | 0 <= i < |out| && Closing(out[i]) :: i == |out| - 2)
  }

  predicate SlotsInOrder(out: seq<Out>) {
    forall i: nat | i < |out| && out[i].ToolDelta? :: SlotDiscipline(out, i)
  }

  lemma BodyThenEnd(body: seq<Out>, end: seq<Out>)
    requires Body(body)
    requires end == [Done] || (|end| == 2 && end[1] == Done && Closing(end[0]))
    ensures EndsOnce(body + end) && SlotsInOrder(body + end)
  {
    var out := body + end;
    forall i: nat | i < |out| && out[i].ToolDelta? ensures SlotDiscipline(out, i) {
      assert i < |body| && out[..i] == body[..i];
    }
  }

  /** For every sequence of lines: one end marker, in last place; a finish reason or usage only right before it;
      tool slots are opened in the order 0, 1, 2, ... and every later argument piece names an opened slot. */
  lemma TranscriptIsFramed(parse: string -> Option<Value>, lines: seq<string>)
    ensures EndsOnce(Transcript(parse, lines)) && SlotsInOrder(Transcript(parse, lines))
  {
    var body, end := RunIsBodyThenEnd(parse, START, lines, []);
    BodyThenEnd(body, end);
    assert [] + Run(parse, START, lines) == Run(parse, START, lines);
  }

  /** Nothing after the line that ends the stream is looked at; until then, the lines so far are a beginning of the
      work, whatever follows. */
  lemma {:induction false} RunIsUntilThenRun(parse: string -> Option<Value>, st: State, lines: seq<string>,
                                             more: seq<string>)
    ensures var (end, out, next) := Until(parse, st, lines);
            Run(parse, st, lines + more) == if next == Read then out + Run(parse, end, more) else Run(parse, st, lines)
    decreases |lines|
  {
    if lines == [] {
      assert lines + more == more;
    } else {
      var (st', out, next) := Feed(parse, st, lines[0]);
      assert (lines + more)[1..] == lines[1..] + more;
      if next == Read {
        RunIsUntilThenRun(parse, st', lines[1..], more);
        var (end, rest, last) := Until(parse, st', lines[1..]);
        Assoc(out, rest, Run(parse, end, more));
      }
    }
  }

  lemma {:induction false} UntilKeepsBody(parse: string -> Option<Value>, st: State, lines: seq<string>,
                                          written: seq<Out>)
    requires Body(written) && StateAgrees(st, written) && Until(parse, st, lines).2 == Read
    ensures Body(written + Until(parse, st, lines).1)
    decreases |lines|
  {
    if lines == [] {
      assert written + [] == written;
    } else {
      var (st', out, next) := Feed(parse, st, lines[0]);
      FeedAdvances(parse, st, lines[0]);
      AdvanceKeepsBody(st, written, out, st');
      UntilKeepsBody(parse, st', lines[1..], written + out);
      Assoc(written, out, Until(parse, st', lines[1..]).1);
    }
  }

  /** When reading fails, the client has a beginning of what it would have got from any continuation of the reply:
      framed, but without finish reason, usage and end marker. */
  lemma BrokenStreamIsCut(parse: string -> Option<Value>, lines: seq<string>, more: seq<string>)
    requires Until(parse, START, lines).2 == Read
    ensures var cut := Until(parse, START, lines).1;
            && cut <= Transcript(parse, lines + more) && SlotsInOrder(cut)
            && forall i | 0 <= i < |cut| :: cut[i] != Done && !Closing(cut[i])
  {
    var cut := Until(parse, START, lines).1;
    RunIsUntilThenRun(parse, START, lines, more);
    UntilKeepsBody(parse, START, lines, []);
    assert [] + cut == cut;
  }

  /** Nothing after the line that ends the stream is looked at. */
  lemma RestIsIgnored(parse: string -> Option<Value>, lines: seq<string>, more: seq<string>)
    requires Until(parse, START, lines).2 != Read
    ensures Transcript(parse, lines + more) == Transcript(parse, lines)
  {
    RunIsUntilThenRun(parse, START, lines, more);
  }
}
