/** Recalling stored turns into a request, and storing served turns. */
module SessionMemory {
  import opened Json

  // ---------- Token estimates ----------

  predicate IsCJK(c: char) {
    var r := c as int;
    (0x4E00 <= r <= 0x9FFF) || (0x3040 <= r <= 0x30FF) || (0xAC00 <= r <= 0xD7AF) || (0x3400 <= r <= 0x4DBF)
  }

  function CountCJK(text: string): nat {
    if text == "" then 0 else CountCJK(text[..|text| - 1]) + if IsCJK(text[|text| - 1]) then 1 else 0
  }

  function CountOther(text: string): nat {
    if text == "" then 0 else CountOther(text[..|text| - 1]) + if IsCJK(text[|text| - 1]) then 0 else 1
  }

  function Estimate(text: string): nat {
    CountCJK(text) + (CountOther(text) + 3) / 4
  }

  method EstimateTokens(text: string) returns (tokens: nat)
    ensures tokens == Estimate(text)
  {
    var cjkRunes, otherRunes := 0, 0;
    for i := 0 to |text|
      invariant cjkRunes == CountCJK(text[..i]) && otherRunes == CountOther(text[..i])
    {
      assert text[..i + 1][..i] == text[..i];
      if IsCJK(text[i]) {
        cjkRunes := cjkRunes + 1;
      } else {
        otherRunes := otherRunes + 1;
      }
    }
    assert text[..|text|] == text;
    return cjkRunes + (otherRunes + 3) / 4;
  }

  lemma {:induction false} CountsAppend(a: string, b: string)
    ensures CountCJK(a + b) == CountCJK(a) + CountCJK(b) && CountOther(a + b) == CountOther(a) + CountOther(b)
  {
    if b == "" {
      assert a + b == a;
    } else {
      assert (a + b)[..|a + b| - 1] == a + b[..|b| - 1];
      CountsAppend(a, b[..|b| - 1]);
    }
  }

  /** Estimating two texts apart costs at most one token more than estimating them together. */
  lemma EstimateIsAlmostAdditive(a: string, b: string)
    ensures Estimate(a) + Estimate(b) - 1 <= Estimate(a + b) <= Estimate(a) + Estimate(b)
  {
    CountsAppend(a, b);
  }

  // ---------- Choosing the turns to recall ----------

  datatype Turn = Turn(index: nat, role: string, content: string, model: string)

  function Cost(turns: seq<Turn>): nat {
    if turns == [] then 0 else Estimate(turns[0].content) + Cost(turns[1..])
  }

  function Contents(turns: seq<Turn>): string {
    if turns == [] then "" else turns[0].content + Contents(turns[1..])
  }

  /** `cutoff` starts the longest suffix of turns whose estimates fit the budget. */
  ghost predicate LongestFit(turns: seq<Turn>, budget: nat, cutoff: nat) {
    cutoff <= |turns| && forall k | 0 <= k <= |turns| :: Cost(turns[k..]) <= budget <==> cutoff <= k
  }

  /** The loop from the newest turn backwards. */
  method SelectTurns(turns: seq<Turn>, budget: nat) returns (cutoff: nat)
    ensures LongestFit(turns, budget, cutoff)
  {
    var usedTokens := 0;
    cutoff := |turns|;
    ghost var fits := |turns|;
    var i := |turns| - 1;
    while i >= 0
      invariant -1 <= i < |turns| && fits == i + 1
      invariant usedTokens == Cost(turns[fits..]) <= budget
      invariant cutoff == if fits == 0 then 0 else |turns|
    {
      assert turns[i..][1..] == turns[i + 1..];
      var cost := EstimateTokens(turns[i].content);
      if usedTokens + cost > budget {
        cutoff := i + 1;
        break;
      }
      usedTokens := usedTokens + cost;
      if i == 0 {
        cutoff := 0;
      }
      i := i - 1;
      fits := fits - 1;
    }
    CostIsMonotone(turns, budget, cutoff);
  }

  lemma {:induction false} CostOfSuffix(turns: seq<Turn>, j: nat, k: nat)
    requires j <= k <= |turns|
    ensures Cost(turns[k..]) <= Cost(turns[j..])
    decreases k - j
  {
    if j < k {
      CostOfSuffix(turns, j + 1, k);
      assert turns[j..][1..] == turns[j + 1..];
    }
  }

  lemma CostIsMonotone(turns: seq<Turn>, budget: nat, cutoff: nat)
    requires cutoff <= |turns| && Cost(turns[cutoff..]) <= budget
    requires cutoff > 0 ==> Cost(turns[cutoff - 1..]) > budget
    ensures LongestFit(turns, budget, cutoff)
  {
    forall k | 0 <= k <= |turns| ensures Cost(turns[k..]) <= budget <==> cutoff <= k {
      if cutoff <= k {
        CostOfSuffix(turns, cutoff, k);
      } else {
        CostOfSuffix(turns, k, cutoff - 1);
      }
    }
  }

  lemma LongestFitExists(turns: seq<Turn>, budget: nat) returns (cutoff: nat)
    ensures LongestFit(turns, budget, cutoff)
  {
    cutoff := |turns|;
    assert turns[|turns|..] == [];
    while cutoff > 0 && Cost(turns[cutoff - 1..]) <= budget
      invariant cutoff <= |turns| && Cost(turns[cutoff..]) <= budget
    {
      cutoff := cutoff - 1;
    }
    CostIsMonotone(turns, budget, cutoff);
  }

  lemma {:induction false} ContentsEstimate(turns: seq<Turn>)
    ensures Estimate(Contents(turns)) <= Cost(turns)
  {
    if turns != [] {
      ContentsEstimate(turns[1..]);
      EstimateIsAlmostAdditive(turns[0].content, Contents(turns[1..]));
    }
  }

  /** The recalled text as a whole is within budget too, not only turn by turn. */
  lemma RecalledTextFits(turns: seq<Turn>, budget: nat, cutoff: nat)
    requires LongestFit(turns, budget, cutoff)
    ensures Estimate(Contents(turns[cutoff..])) <= budget
  {
    ContentsEstimate(turns[cutoff..]);
  }

  // ---------- Injecting ----------

  function Recalled(t: Turn): Value {
    Obj(map["role" := Str(t.role), "content" := Str(t.content), "__recalled" := Bool(true)])
  }

  function RecalledAll(turns: seq<Turn>): seq<Value> {
    seq(|turns|, i requires 0 <= i < |turns| => Recalled(turns[i]))
  }

  predicate HasRole(m: Value, role: string) {
    m.Obj? && "role" in m.fields && m.fields["role"] == Str(role)
  }

  predicate IsRecalled(m: Value) {
    m.Obj? && "__recalled" in m.fields && m.fields["__recalled"] == Bool(true)
  }

  /** Behind the leading system message, if there is one, and before everything else. */
  function InjectMessages(messages: seq<Value>, recalled: seq<Value>): seq<Value> {
    if messages != [] && HasRole(messages[0], "system") then [messages[0]] + recalled + messages[1..]
    else recalled + messages
  }

  predicate HasMessages(body: Value) {
    body.Obj? && "messages" in body.fields && body.fields["messages"].Arr?
  }

  /** The request with the turns from `cutoff` on in front of its own messages. */
  function Inject(body: Value, turns: seq<Turn>, cutoff: nat): Value
    requires cutoff <= |turns|
  {
    if turns[cutoff..] == [] || !HasMessages(body) then body
    else
      Obj(body.fields["messages" := Arr(InjectMessages(body.fields["messages"].items, RecalledAll(turns[cutoff..])))])
  }

  method MarkRecalled(selected: seq<Turn>) returns (recalled: seq<Value>)
    ensures recalled == RecalledAll(selected)
  {
    recalled := [];
    for i := 0 to |selected|
      invariant |recalled| == i && forall k | 0 <= k < i :: recalled[k] == Recalled(selected[k])
    {
      recalled := recalled + [Recalled(selected[i])];
    }
  }

  method InsertMessages(messages: seq<Value>, recalled: seq<Value>) returns (newMessages: seq<Value>)
    ensures newMessages == InjectMessages(messages, recalled)
  {
    newMessages := [];
    var startIdx := 0;
    if |messages| > 0 && HasRole(messages[0], "system") {
      newMessages := newMessages + [messages[0]];
      startIdx := 1;
    }
    newMessages := newMessages + recalled;
    newMessages := newMessages + messages[startIdx..];
  }

  /** `loaded` is `None` when the session could not be loaded. */
  method InjectSessionMemory(body: Value, session: string, loaded: Option<seq<Turn>>, budget: nat)
    returns (newBody: Value)
    ensures session == "" || loaded.None? ==> newBody == body
    ensures session != "" && loaded.Some? ==>
              exists cutoff: nat ::
                LongestFit(loaded.value, budget, cutoff) && newBody == Inject(body, loaded.value, cutoff)
  {
    if session == "" || loaded.None? {
      return body;
    }
    var turns := loaded.value;
    var cutoff := SelectTurns(turns, budget);
    var selected := turns[cutoff..];
    if |selected| == 0 || !HasMessages(body) {
      assert body == Inject(body, turns, cutoff);
      return body;
    }
    var recalled := MarkRecalled(selected);
    var newMessages := InsertMessages(body.fields["messages"].items, recalled);
    newBody := Obj(body.fields["messages" := Arr(newMessages)]);
    assert newBody == Inject(body, turns, cutoff);
  }

  function Keep(messages: seq<Value>, recalled: bool): seq<Value> {
    if messages == [] then []
    else (if IsRecalled(messages[0]) == recalled then [messages[0]] else []) + Keep(messages[1..], recalled)
  }

  lemma {:induction false} KeepAppend(a: seq<Value>, b: seq<Value>, recalled: bool)
    ensures Keep(a + b, recalled) == Keep(a, recalled) + Keep(b, recalled)
  {
    if a == [] {
      assert a + b == b;
    } else {
      assert (a + b)[1..] == a[1..] + b;
      KeepAppend(a[1..], b, recalled);
    }
  }

  lemma {:induction false} KeepAll(a: seq<Value>, recalled: bool)
    requires forall m | m in a :: IsRecalled(m)
    ensures Keep(a, recalled) == if recalled then a else []
  {
    if a != [] {
      assert a[0] in a;
      KeepAll(a[1..], recalled);
    }
  }

  /** The request's own messages keep their order, and a request without recalled messages gets exactly the chosen
      turns, in the order they were stored. */
  lemma InjectionKeepsMessages(messages: seq<Value>, turns: seq<Turn>)
    ensures var all := InjectMessages(messages, RecalledAll(turns));
            && Keep(all, false) == Keep(messages, false)
            && (Keep(messages, true) == [] ==> Keep(all, true) == RecalledAll(turns))
  {
    var recalled := RecalledAll(turns);
    var head, tail := SplitAtSystem(messages, recalled);
    KeepInjected(head, recalled, tail, false);
    KeepInjected(head, recalled, tail, true);
    KeepAll(recalled, true);
    KeepAll(recalled, false);
    NothingKept(Keep(head, false), Keep(tail, false), Keep(head, true), Keep(tail, true), recalled);
  }

  lemma NothingKept(h: seq<Value>, t: seq<Value>, hr: seq<Value>, tr: seq<Value>, recalled: seq<Value>)
    ensures h + ([] + t) == h + t
    ensures hr + tr == [] ==> hr + (recalled + tr) == recalled
  {
  }

  lemma SplitAtSystem(messages: seq<Value>, recalled: seq<Value>) returns (head: seq<Value>, tail: seq<Value>)
    ensures messages == head + tail && InjectMessages(messages, recalled) == head + (recalled + tail)
  {
    if messages != [] && HasRole(messages[0], "system") {
      head, tail := messages[..1], messages[1..];
    } else {
      head, tail := [], messages;
    }
  }

  lemma KeepInjected(head: seq<Value>, recalled: seq<Value>, tail: seq<Value>, r: bool)
    ensures Keep(head + tail, r) == Keep(head, r) + Keep(tail, r)
    ensures Keep(head + (recalled + tail), r) == Keep(head, r) + (Keep(recalled, r) + Keep(tail, r))
  {
    KeepAppend(head, tail, r);
    KeepAppend(head, recalled + tail, r);
    KeepAppend(recalled, tail, r);
  }

  // ---------- The user's own message ----------

  /** The text parts of a multimodal content, each on its line. */
  function PartLines(parts: seq<Value>): string {
    if parts == [] then ""
    else
      var p := parts[|parts| - 1];
      var isText := p.Obj? && "text" in p.fields && p.fields["text"].Str? && p.fields["text"].s != "";
      PartLines(parts[..|parts| - 1]) + if isText then p.fields["text"].s + "\n" else ""
  }

  /** Text of a user message; `trim` removes surrounding white space. */
  function UserText(m: Value, trim: string -> string): string
    requires m.Obj?
  {
    if "content" !in m.fields then ""
    else match m.fields["content"]
      case Str(s) => s
      case Arr(parts) => trim(PartLines(parts))
      case _ => ""
  }

  predicate IsOwnUser(m: Value) {
    HasRole(m, "user") && !IsRecalled(m)
  }

  /** The text of the last user message that was not recalled. */
  function LastUser(messages: seq<Value>, trim: string -> string): string {
    if messages == [] then ""
    else if IsOwnUser(messages[|messages| - 1]) then UserText(messages[|messages| - 1], trim)
    else LastUser(messages[..|messages| - 1], trim)
  }

  function LastUserOf(body: Value, trim: string -> string): string {
    if HasMessages(body) then LastUser(body.fields["messages"].items, trim) else ""
  }

  method ExtractLastUserMessage(body: Value, trim: string -> string) returns (text: string)
    ensures text == LastUserOf(body, trim)
  {
    if !HasMessages(body) {
      return "";
    }
    var messages := body.fields["messages"].items;
    assert messages[..|messages|] == messages;
    var i := |messages| - 1;
    while i >= 0
      invariant -1 <= i < |messages|
      invariant LastUser(messages, trim) == LastUser(messages[..i + 1], trim)
    {
      var msg := messages[i];
      assert messages[..i + 1][..i] == messages[..i];
      if !msg.Obj? || IsRecalled(msg) || !HasRole(msg, "user") {
        i := i - 1;
        continue;
      }
      if "content" in msg.fields && msg.fields["content"].Str? {
        return msg.fields["content"].s;
      }
      if "content" in msg.fields && msg.fields["content"].Arr? {
        var lines := JoinParts(msg.fields["content"].items);
        return trim(lines);
      }
      return "";
    }
    return "";
  }

  method JoinParts(parts: seq<Value>) returns (text: string)
    ensures text == PartLines(parts)
  {
    text := "";
    for i := 0 to |parts|
      invariant text == PartLines(parts[..i])
    {
      assert parts[..i + 1][..i] == parts[..i];
      var p := parts[i];
      if p.Obj? && "text" in p.fields && p.fields["text"].Str? && p.fields["text"].s != "" {
        text := text + p.fields["text"].s + "\n";
        assert PartLines(parts[..i + 1]) == PartLines(parts[..i]) + (p.fields["text"].s + "\n");
      }
    }
    assert parts[..|parts|] == parts;
  }

  lemma {:induction false} LastUserAppend(a: seq<Value>, b: seq<Value>, trim: string -> string)
    ensures LastUser(a + b, trim)
         == if exists m | m in b :: IsOwnUser(m) then LastUser(b, trim) else LastUser(a, trim)
    decreases |b|
  {
    if b == [] {
      assert a + b == a;
    } else {
      var n := |b| - 1;
      assert (a + b)[..|a + b| - 1] == a + b[..n];
      LastUserAppend(a, b[..n], trim);
      assert b[n] in b && forall m :: m in b <==> m in b[..n] || m == b[n];
    }
  }

  lemma MiddleIsInvisible(head: seq<Value>, recalled: seq<Value>, tail: seq<Value>, trim: string -> string)
    requires forall m | m in recalled :: IsRecalled(m)
    ensures LastUser(head + recalled + tail, trim) == LastUser(head + tail, trim)
  {
    LastUserAppend(head + recalled, tail, trim);
    LastUserAppend(head, recalled, trim);
    LastUserAppend(head, tail, trim);
  }

  /** Recalled turns never pass for the user's own message: injection does not change what is extracted. */
  lemma InjectionIsInvisible(body: Value, turns: seq<Turn>, cutoff: nat, trim: string -> string)
    requires cutoff <= |turns|
    ensures LastUserOf(Inject(body, turns, cutoff), trim) == LastUserOf(body, trim)
  {
    if turns[cutoff..] != [] && HasMessages(body) {
      MessagesInvisible(body.fields["messages"].items, turns[cutoff..], trim);
    }
  }

  lemma MessagesInvisible(messages: seq<Value>, turns: seq<Turn>, trim: string -> string)
    ensures LastUser(InjectMessages(messages, RecalledAll(turns)), trim) == LastUser(messages, trim)
  {
    var recalled := RecalledAll(turns);
    var head, tail := SplitAtSystem(messages, recalled);
    assert head + (recalled + tail) == head + recalled + tail;
    MiddleIsInvisible(head, recalled, tail, trim);
  }
}
