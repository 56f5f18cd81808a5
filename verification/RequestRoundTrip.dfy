/** An OpenAI request sent through the Anthropic format and back comes out unchanged exactly when it is canonical. */
module RequestRoundTrip {
  import opened Json
  import opened Requests

  /** OpenAI to Anthropic, over the wire, and back. */
  function Trip(c: Codec, rawText: Value -> string, r: OARequest): OARequest {
    ToOpenAI(Wire(c, ToAnthropic(c, r)), rawText)
  }

  // ---------- Canonical requests ----------

  predicate CanonicalCall(c: Codec, tc: ToolCall) {
    tc.kind == "function" && c.IsValid(tc.arguments)
  }

  predicate CanonicalCalls(c: Codec, tcs: seq<ToolCall>) {
    forall tc | tc in tcs :: CanonicalCall(c, tc)
  }

  predicate HasText(m: OAMessage) {
    m.content.Some? && m.content.value.Str?
  }

  /** A message after the system message. */
  predicate CanonicalMessage(c: Codec, m: OAMessage) {
    && m.reasoning == "" && m.name == ""
    && match m.role
       case "tool" => m.toolCalls == [] && HasText(m)
       case "user" => m.toolCalls == [] && HasText(m) && m.toolCallId == ""
       case "assistant" =>
         && m.toolCallId == "" && CanonicalCalls(c, m.toolCalls)
         && (if m.toolCalls == [] then HasText(m) else m.content.None? || (HasText(m) && m.content.value.s != ""))
       case _ => false
  }

  predicate CanonicalSystem(m: OAMessage) {
    HasText(m) && m.content.value.s != "" && m == SystemMessage(m.content.value.s)
  }

  /** At most one system message, in front, with some text. */
  predicate CanonicalMessages(c: Codec, ms: seq<OAMessage>) {
    forall i | 0 <= i < |ms| :: CanonicalMessage(c, ms[i]) || (i == 0 && CanonicalSystem(ms[i]))
  }

  predicate CanonicalTool(t: OATool) {
    t.kind == "function" && t.parameters.Some?
  }

  predicate CanonicalChoice(choice: Option<Value>) {
    match choice
    case None => true
    case Some(Str(s)) => s == "auto" || s == "required"
    case Some(Obj(top)) =>
      && "function" in top && top["function"].Obj? && "name" in top["function"].fields
      && top["function"].fields["name"].Str? && top["function"].fields["name"].s != ""
      && choice.value == NamedChoice(top["function"].fields["name"].s)
    case Some(_) => false
  }

  predicate Canonical(c: Codec, r: OARequest) {
    && r.maxTokens > 0 && CanonicalMessages(c, r.messages)
    && (forall t | t in r.tools :: CanonicalTool(t)) && CanonicalChoice(r.toolChoice)
  }

  // ---------- Equality up to the layout of tool arguments ----------

  function CompactCall(c: Codec, tc: ToolCall): ToolCall {
    if c.IsValid(tc.arguments) then tc.(arguments := c.compact(tc.arguments)) else tc
  }

  function CompactCalls(c: Codec, tcs: seq<ToolCall>): seq<ToolCall> {
    seq(|tcs|, i requires 0 <= i < |tcs| => CompactCall(c, tcs[i]))
  }

  function CompactMessage(c: Codec, m: OAMessage): OAMessage {
    m.(toolCalls := CompactCalls(c, m.toolCalls))
  }

  function CompactMessages(c: Codec, ms: seq<OAMessage>): seq<OAMessage> {
    seq(|ms|, i requires 0 <= i < |ms| => CompactMessage(c, ms[i]))
  }

  /** The request with the JSON texts of its tool arguments re-encoded. */
  function Compact(c: Codec, r: OARequest): OARequest {
    r.(messages := CompactMessages(c, r.messages))
  }

  // ---------- One message ----------

  lemma BlocksSnoc(bs: seq<Block>, b: Block, rawText: Value -> string)
    requires b.ToolUse? && b.input != ""
    ensures BlockTexts(bs + [b]) == BlockTexts(bs) && BlockResults(bs + [b], rawText) == BlockResults(bs, rawText)
    ensures BlockCalls(bs + [b]) == BlockCalls(bs) + [ToolCall(b.id, "function", b.name, b.input)]
  {
    assert (bs + [b])[..|bs|] == bs;
  }

  /** A tool call there and back. */
  function TripCall(c: Codec, tc: ToolCall): ToolCall {
    var b := WireBlock(c, ToolUseBlock(c, tc));
    ToolCall(b.id, "function", b.name, b.input)
  }

  function TripCalls(c: Codec, tcs: seq<ToolCall>): seq<ToolCall> {
    seq(|tcs|, i requires 0 <= i < |tcs| => TripCall(c, tcs[i]))
  }

  lemma CallTrips(c: Codec, tc: ToolCall)
    requires c.Lawful()
    ensures var t := TripCall(c, tc);
            && t.arguments != "" && CanonicalCall(c, t) && CompactCall(c, t) == t
            && (CanonicalCall(c, tc) ==> t == CompactCall(c, tc))
  {
    var raw := ToolUseBlock(c, tc).input;
    assert c.IsValid(raw) && raw != "";
    assert c.parse(c.compact(raw)) == c.parse(raw);
  }

  lemma CallsTripPointwise(c: Codec, tcs: seq<ToolCall>)
    requires c.Lawful()
    ensures var ts := TripCalls(c, tcs);
            && CanonicalCalls(c, ts) && CompactCalls(c, ts) == ts
            && (CanonicalCalls(c, tcs) ==> ts == CompactCalls(c, tcs))
  {
    forall tc ensures var t := TripCall(c, tc);
                      && CanonicalCall(c, t) && CompactCall(c, t) == t
                      && (CanonicalCall(c, tc) ==> t == CompactCall(c, tc))
    {
      CallTrips(c, tc);
    }
  }

  lemma CallBlockTrips(c: Codec, front: seq<Block>, tc: ToolCall, rawText: Value -> string)
    requires c.Lawful()
    ensures var before, bs := WireBlocks(c, front), WireBlocks(c, front + [ToolUseBlock(c, tc)]);
            && BlockTexts(bs) == BlockTexts(before) && BlockResults(bs, rawText) == BlockResults(before, rawText)
            && BlockCalls(bs) == BlockCalls(before) + [TripCall(c, tc)]
  {
    var last := ToolUseBlock(c, tc);
    assert WireBlocks(c, front + [last]) == WireBlocks(c, front) + [WireBlock(c, last)];
    CallTrips(c, tc);
    BlocksSnoc(WireBlocks(c, front), WireBlock(c, last), rawText);
  }

  lemma ToolUseSnoc(c: Codec, lead: seq<Block>, front: seq<ToolCall>, tc: ToolCall)
    ensures lead + ToolUseBlocks(c, front + [tc]) == (lead + ToolUseBlocks(c, front)) + [ToolUseBlock(c, tc)]
    ensures TripCalls(c, front + [tc]) == TripCalls(c, front) + [TripCall(c, tc)]
  {
  }

  /** Tool calls keep their order; texts and results show no trace of them. */
  lemma {:induction false} CallsTrip(c: Codec, lead: seq<Block>, tcs: seq<ToolCall>, rawText: Value -> string)
    requires c.Lawful() && lead == WireBlocks(c, lead) && forall b | b in lead :: b.Text?
    ensures var bs := WireBlocks(c, lead + ToolUseBlocks(c, tcs));
            BlockTexts(bs) == BlockTexts(lead) && BlockResults(bs, rawText) == [] && BlockCalls(bs) == TripCalls(c, tcs)
  {
    if tcs == [] {
      assert lead + ToolUseBlocks(c, tcs) == lead;
      LeadTrip(lead, rawText);
    } else {
      var front, tc := tcs[..|tcs| - 1], tcs[|tcs| - 1];
      assert tcs == front + [tc];
      CallsTrip(c, lead, front, rawText);
      ToolUseSnoc(c, lead, front, tc);
      CallBlockTrips(c, lead + ToolUseBlocks(c, front), tc, rawText);
    }
  }

  lemma {:induction false} LeadTrip(lead: seq<Block>, rawText: Value -> string)
    requires forall b | b in lead :: b.Text?
    ensures BlockCalls(lead) == [] && BlockResults(lead, rawText) == []
  {
    if lead != [] {
      assert lead[|lead| - 1] in lead;
      LeadTrip(lead[..|lead| - 1], rawText);
    }
  }

  /** A message that is no system message goes there and back as one message. */
  function TripMessage(c: Codec, m: OAMessage, rawText: Value -> string): seq<OAMessage> {
    MessageToOpenAI(WireMessage(c, MessageToAnthropic(c, m)), rawText)
  }

  function AssistantBack(text: string, calls: seq<ToolCall>): OAMessage {
    OAMessage("assistant", if text != "" then Some(Str(text)) else None, "", calls, "", "")
  }

  function LeadBlock(text: string): seq<Block> {
    if text != "" then [Text(text)] else []
  }

  lemma LeadBlocks(c: Codec, text: string)
    ensures var lead := LeadBlock(text);
            && WireBlocks(c, lead) == lead && BlockTexts(lead) == (if text != "" then [text] else [])
            && forall b | b in lead :: b.Text?
  {
    if text != "" {
      assert [Text(text)][..0] == [] && BlockTexts([]) == [];
    }
  }

  lemma AssistantForth(c: Codec, m: OAMessage)
    requires m.role == "assistant" && m.toolCalls != []
    ensures MessageToAnthropic(c, m)
         == AMessage("assistant", Blocks(LeadBlock(ExtractText(m.content)) + ToolUseBlocks(c, m.toolCalls)))
  {
  }

  lemma JoinOne(text: string)
    ensures Join([text], "\n") == text
  {
  }

  lemma BlocksBack(bs: seq<Block>, text: string, calls: seq<ToolCall>, rawText: Value -> string)
    requires BlockTexts(bs) == (if text != "" then [text] else []) && BlockCalls(bs) == calls != []
    requires BlockResults(bs, rawText) == []
    ensures MessageToOpenAI(AMessage("assistant", Blocks(bs)), rawText) == [AssistantBack(text, calls)]
  {
    JoinOne(text);
  }

  lemma AssistantMessage(c: Codec, m: OAMessage, rawText: Value -> string)
    requires c.Lawful() && m.role == "assistant" && m.toolCalls != []
    ensures TripMessage(c, m, rawText) == [AssistantBack(ExtractText(m.content), TripCalls(c, m.toolCalls))]
  {
    var text := ExtractText(m.content);
    var bs := LeadBlock(text) + ToolUseBlocks(c, m.toolCalls);
    AssistantForth(c, m);
    LeadBlocks(c, text);
    CallsTrip(c, LeadBlock(text), m.toolCalls, rawText);
    BlocksBack(WireBlocks(c, bs), text, TripCalls(c, m.toolCalls), rawText);
  }

  lemma AssistantTrips(c: Codec, m: OAMessage, rawText: Value -> string)
    requires c.Lawful() && m.role == "assistant" && m.toolCalls != []
    ensures var t := TripMessage(c, m, rawText);
            && |t| == 1 && CanonicalMessage(c, t[0]) && CompactMessage(c, t[0]) == t[0]
            && (CanonicalMessage(c, m) ==> t[0] == CompactMessage(c, m))
  {
    AssistantMessage(c, m, rawText);
    CallsTripPointwise(c, m.toolCalls);
  }

  lemma OneBlock(b: Block, rawText: Value -> string)
    ensures BlockTexts([b]) == if b.Text? && b.text != "" then [b.text] else []
    ensures BlockCalls([b])
         == if b.ToolUse? then [ToolCall(b.id, "function", b.name, if b.input != "" then b.input else "{}")] else []
    ensures BlockResults([b], rawText)
         == if b.ToolResult? then [ToolMessage(b.toolUseId, ExtractToolResultText(b.result, rawText))] else []
  {
    assert [b][..0] == [] && BlockTexts([]) == [] && BlockCalls([]) == [] && BlockResults([], rawText) == [];
  }

  lemma ToolTrips(c: Codec, m: OAMessage, rawText: Value -> string)
    requires m.role == "tool"
    ensures TripMessage(c, m, rawText) == [ToolMessage(m.toolCallId, ExtractText(m.content))]
  {
    var b := ToolResult(m.toolCallId, Some(Str(ExtractText(m.content))));
    assert WireBlocks(c, [b]) == [b];
    OneBlock(b, rawText);
    var back := [ToolMessage(m.toolCallId, ExtractText(m.content))];
    assert back + [] == back;
  }

  lemma MessageTrips(c: Codec, m: OAMessage, rawText: Value -> string)
    requires c.Lawful() && m.role != "system"
    ensures var t := TripMessage(c, m, rawText);
            && |t| == 1 && CanonicalMessage(c, t[0]) && CompactMessage(c, t[0]) == t[0]
            && (CanonicalMessage(c, m) ==> t[0] == CompactMessage(c, m))
  {
    if m.role == "tool" {
      ToolTrips(c, m, rawText);
    } else if m.role == "assistant" && m.toolCalls != [] {
      AssistantTrips(c, m, rawText);
    }
  }

  // ---------- The message list ----------

  /** Everything but the system texts, each message taken there and back. */
  function Tripped(c: Codec, ms: seq<OAMessage>, rawText: Value -> string): seq<OAMessage> {
    if ms == [] then []
    else
      var m := ms[|ms| - 1];
      Tripped(c, ms[..|ms| - 1], rawText) + if m.role == "system" then [] else TripMessage(c, m, rawText)
  }

  lemma WireSnoc(c: Codec, front: seq<AMessage>, last: AMessage, rawText: Value -> string)
    ensures MessagesToOpenAI(WireMessages(c, front + [last]), rawText)
         == MessagesToOpenAI(WireMessages(c, front), rawText) + MessageToOpenAI(WireMessage(c, last), rawText)
  {
    var wire := WireMessages(c, front + [last]);
    assert wire[..|wire| - 1] == WireMessages(c, front) && wire[|wire| - 1] == WireMessage(c, last);
  }

  lemma AnthropicSnoc(c: Codec, front: seq<OAMessage>, m: OAMessage)
    ensures MessagesToAnthropic(c, front + [m])
         == if m.role == "system" then MessagesToAnthropic(c, front)
            else MessagesToAnthropic(c, front) + [MessageToAnthropic(c, m)]
  {
    assert (front + [m])[..|front|] == front;
  }

  lemma TrippedSnoc(c: Codec, front: seq<OAMessage>, m: OAMessage, rawText: Value -> string)
    ensures Tripped(c, front + [m], rawText)
         == if m.role == "system" then Tripped(c, front, rawText)
            else Tripped(c, front, rawText) + TripMessage(c, m, rawText)
  {
    assert (front + [m])[..|front|] == front;
  }

  lemma {:induction false} ListTrips(c: Codec, ms: seq<OAMessage>, rawText: Value -> string)
    ensures MessagesToOpenAI(WireMessages(c, MessagesToAnthropic(c, ms)), rawText) == Tripped(c, ms, rawText)
  {
    if ms == [] {
      assert WireMessages(c, []) == [];
    } else {
      var m, front := ms[|ms| - 1], ms[..|ms| - 1];
      assert ms == front + [m];
      ListTrips(c, front, rawText);
      AnthropicSnoc(c, front, m);
      TrippedSnoc(c, front, m, rawText);
      WireSnoc(c, MessagesToAnthropic(c, front), MessageToAnthropic(c, m), rawText);
    }
  }

  /** Whatever came in, canonical messages come out. */
  lemma {:induction false} TrippedIsCanonical(c: Codec, ms: seq<OAMessage>, rawText: Value -> string)
    requires c.Lawful()
    ensures forall m | m in Tripped(c, ms, rawText) :: CanonicalMessage(c, m) && CompactMessage(c, m) == m
  {
    if ms != [] {
      var m := ms[|ms| - 1];
      TrippedIsCanonical(c, ms[..|ms| - 1], rawText);
      if m.role != "system" {
        MessageTrips(c, m, rawText);
        assert forall x | x in TripMessage(c, m, rawText) :: x == TripMessage(c, m, rawText)[0];
      }
    }
  }

  lemma {:induction false} PlainListTrips(c: Codec, ms: seq<OAMessage>, rawText: Value -> string)
    requires c.Lawful() && forall m | m in ms :: CanonicalMessage(c, m)
    ensures Tripped(c, ms, rawText) == CompactMessages(c, ms) && SystemParts(ms) == []
  {
    if ms != [] {
      var m, front := ms[|ms| - 1], ms[..|ms| - 1];
      assert m in ms && forall x | x in front :: x in ms;
      PlainListTrips(c, front, rawText);
      CanonicalMessageTrips(c, m, rawText);
      CompactSnoc(c, ms);
    }
  }

  lemma CompactSnoc(c: Codec, ms: seq<OAMessage>)
    requires ms != []
    ensures CompactMessages(c, ms) == CompactMessages(c, ms[..|ms| - 1]) + [CompactMessage(c, ms[|ms| - 1])]
  {
  }

  lemma CanonicalMessageTrips(c: Codec, m: OAMessage, rawText: Value -> string)
    requires c.Lawful() && CanonicalMessage(c, m)
    ensures m.role != "system" && TripMessage(c, m, rawText) == [CompactMessage(c, m)]
  {
    MessageTrips(c, m, rawText);
  }

  lemma {:induction false} SystemInFront(c: Codec, s: OAMessage, ms: seq<OAMessage>, rawText: Value -> string)
    requires CanonicalSystem(s)
    ensures Tripped(c, [s] + ms, rawText) == Tripped(c, ms, rawText)
    ensures SystemParts([s] + ms) == [s.content.value.s] + SystemParts(ms)
  {
    var all := [s] + ms;
    if ms == [] {
      assert all == [s] && [s][..0] == [];
      assert SystemParts([s]) == SystemParts([]) + [s.content.value.s];
      assert Tripped(c, [s], rawText) == Tripped(c, [], rawText) + [];
    } else {
      SystemInFront(c, s, ms[..|ms| - 1], rawText);
      assert all[..|all| - 1] == [s] + ms[..|ms| - 1] && all[|all| - 1] == ms[|ms| - 1];
    }
  }

  lemma CompactCons(c: Codec, m: OAMessage, ms: seq<OAMessage>)
    ensures CompactMessages(c, [m] + ms) == [CompactMessage(c, m)] + CompactMessages(c, ms)
  {
  }

  lemma SystemListTrips(c: Codec, s: OAMessage, rest: seq<OAMessage>, rawText: Value -> string)
    requires c.Lawful() && CanonicalSystem(s) && forall m | m in rest :: CanonicalMessage(c, m)
    ensures Join(SystemParts([s] + rest), "\n\n") == s.content.value.s
    ensures [s] + Tripped(c, [s] + rest, rawText) == CompactMessages(c, [s] + rest)
  {
    PlainListTrips(c, rest, rawText);
    SystemInFront(c, s, rest, rawText);
    CompactCons(c, s, rest);
    assert CompactCalls(c, []) == [];
    assert [s.content.value.s] + SystemParts(rest) == [s.content.value.s];
  }

  /** Canonical messages come back as they were, the system message in front. */
  lemma CanonicalListTrips(c: Codec, ms: seq<OAMessage>, rawText: Value -> string)
    requires c.Lawful() && CanonicalMessages(c, ms)
    ensures var system := Join(SystemParts(ms), "\n\n");
            (if system != "" then [SystemMessage(system)] else []) + Tripped(c, ms, rawText) == CompactMessages(c, ms)
  {
    if ms == [] || CanonicalMessage(c, ms[0]) {
      PlainListTrips(c, ms, rawText);
      assert [] + Tripped(c, ms, rawText) == Tripped(c, ms, rawText);
    } else {
      assert ms == [ms[0]] + ms[1..];
      SystemListTrips(c, ms[0], ms[1..], rawText);
    }
  }

  // ---------- The theorems ----------

  lemma ChoiceTrips(choice: Option<Value>)
    ensures var there := if choice.Some? then ToolChoiceOAToAnth(choice.value) else None;
            var back := if there.Some? then ToolChoiceAnthToOA(there.value) else None;
            CanonicalChoice(back) && (CanonicalChoice(choice) ==> back == choice)
  {
  }

  /** Any request at all, sent there and back, is canonical, with its tool arguments laid out compactly. */
  lemma TripIsCanonical(c: Codec, rawText: Value -> string, r: OARequest)
    requires c.Lawful()
    ensures Canonical(c, Trip(c, rawText, r)) && Compact(c, Trip(c, rawText, r)) == Trip(c, rawText, r)
  {
    var ms := Tripped(c, r.messages, rawText);
    var system := Join(SystemParts(r.messages), "\n\n");
    var lead := if system != "" then [SystemMessage(system)] else [];
    ListTrips(c, r.messages, rawText);
    assert Trip(c, rawText, r).messages == lead + ms;
    TrippedIsCanonical(c, r.messages, rawText);
    LeadIsCanonical(c, lead, ms);
    ChoiceTrips(r.toolChoice);
  }

  lemma LeadIsCanonical(c: Codec, lead: seq<OAMessage>, ms: seq<OAMessage>)
    requires lead == [] || (|lead| == 1 && CanonicalSystem(lead[0]))
    requires forall m | m in ms :: CanonicalMessage(c, m) && CompactMessage(c, m) == m
    ensures CanonicalMessages(c, lead + ms) && CompactMessages(c, lead + ms) == lead + ms
  {
    var all := lead + ms;
    forall i | 0 <= i < |all| ensures CompactMessage(c, all[i]) == all[i] {
      assert i >= |lead| ==> all[i] in ms;
    }
  }

  /** A canonical request comes back with nothing changed but the layout of its tool arguments. */
  lemma CanonicalTrips(c: Codec, rawText: Value -> string, r: OARequest)
    requires c.Lawful() && Canonical(c, r)
    ensures Trip(c, rawText, r) == Compact(c, r)
  {
    ListTrips(c, r.messages, rawText);
    CanonicalListTrips(c, r.messages, rawText);
    assert Trip(c, rawText, r).messages == CompactMessages(c, r.messages);
    ChoiceTrips(r.toolChoice);
    ToolsTrip(c, r);
  }

  lemma ToolsTrip(c: Codec, r: OARequest)
    requires forall t | t in r.tools :: CanonicalTool(t)
    ensures ToolsToOpenAI(Wire(c, ToAnthropic(c, r)).tools) == r.tools
  {
    assert forall i | 0 <= i < |r.tools| :: r.tools[i] in r.tools && CanonicalTool(r.tools[i]);
  }

  lemma CompactMessageKeeps(c: Codec, m: OAMessage)
    requires c.Lawful() && CanonicalMessage(c, CompactMessage(c, m))
    ensures CanonicalMessage(c, m)
  {
    var k := CompactMessage(c, m);
    forall i | 0 <= i < |m.toolCalls| ensures CanonicalCall(c, m.toolCalls[i]) {
      assert k.toolCalls[i] in k.toolCalls;
    }
  }

  lemma CompactKeeps(c: Codec, r: OARequest)
    requires c.Lawful() && Canonical(c, Compact(c, r))
    ensures Canonical(c, r)
  {
    var k := Compact(c, r);
    forall i | 0 <= i < |r.messages|
      ensures CanonicalMessage(c, r.messages[i]) || (i == 0 && CanonicalSystem(r.messages[i]))
    {
      assert k.messages[i] == CompactMessage(c, r.messages[i]);
      if CanonicalMessage(c, k.messages[i]) {
        CompactMessageKeeps(c, r.messages[i]);
      } else {
        assert |r.messages[i].toolCalls| == 0;
      }
    }
  }

  /** The round trip is the identity, up to the layout of tool arguments, on the canonical requests and on no others. */
  lemma RoundTripExactlyCanonical(c: Codec, rawText: Value -> string, r: OARequest)
    requires c.Lawful()
    ensures Trip(c, rawText, r) == Compact(c, r) <==> Canonical(c, r)
  {
    if Canonical(c, r) {
      CanonicalTrips(c, rawText, r);
    } else {
      TripIsCanonical(c, rawText, r);
      if Trip(c, rawText, r) == Compact(c, r) {
        CompactKeeps(c, r);
      }
    }
  }

  /** One trip settles a request: a second one changes nothing. */
  lemma SecondTripChangesNothing(c: Codec, rawText: Value -> string, r: OARequest)
    requires c.Lawful()
    ensures Trip(c, rawText, Trip(c, rawText, r)) == Trip(c, rawText, r)
  {
    TripIsCanonical(c, rawText, r);
    CanonicalTrips(c, rawText, Trip(c, rawText, r));
  }

  /** What `Compact` changes: only the argument texts of tool calls, and each still parses to the same JSON value. */
  lemma CompactIsTheSameRequest(c: Codec, r: OARequest, i: nat, k: nat)
    requires c.Lawful() && i < |r.messages| && k < |r.messages[i].toolCalls|
    ensures var m, m' := r.messages[i], Compact(c, r).messages[i];
            && m'.(toolCalls := []) == m.(toolCalls := []) && |m'.toolCalls| == |m.toolCalls|
            && m'.toolCalls[k].(arguments := "") == m.toolCalls[k].(arguments := "")
            && c.parse(m'.toolCalls[k].arguments) == c.parse(m.toolCalls[k].arguments)
  {
  }
}
