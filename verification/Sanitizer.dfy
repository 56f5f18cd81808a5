/** Checking a chat request, filling in what clients omit, and taking out what a provider without tools must not see. */
module Sanitizer {
  import opened Json
  import Decimal

  type Fields = map<string, Value>

  datatype Reason = Accepted | InvalidJson | NoModel | NoMessages | MessagesNotArray | MessagesEmpty

  /** What one pass hands on; `body` is `None` for bytes that are not JSON. */
  datatype Result = Result(body: Option<Value>, modified: bool, reason: Reason, stripped: seq<string>) {
    predicate Valid() {
      reason == Accepted
    }
  }

  datatype Config = Config(endpoint: string, supportsTools: Option<bool>, soundsLikeSystem: string -> bool) {
    predicate IsChat() {
      endpoint == "/v1/chat/completions"
    }

    /** There is a provider and it takes no tools. */
    predicate Strips() {
      supportsTools == Some(false)
    }
  }

  const TOOL_FIELDS: seq<string> := ["tools", "tool_choice", "functions", "function_call", "parallel_tool_calls"]
  const DETECTED_FIELDS: seq<string> := ["tools", "tool_choice", "functions", "function_call"]

  // ---------- The parts of one pass ----------

  /** Required fields, in the order they are looked at. */
  function Check(req: Fields): Reason {
    if "model" !in req then NoModel
    else if "messages" !in req then NoMessages
    else if !req["messages"].Arr? then MessagesNotArray
    else if req["messages"].items == [] then MessagesEmpty
    else Accepted
  }

  function RoleOf(m: Fields): string {
    if "role" in m && m["role"].Str? then m["role"].s else ""
  }

  /** The role given to message number `i` when it names none. */
  function InferRole(m: Fields, i: nat, soundsLikeSystem: string -> bool): string {
    if "tool_calls" in m then "assistant"
    else if "tool_call_id" in m then "tool"
    else if "function" in m then "function"
    else if i == 0 && "content" in m && m["content"].Str? && soundsLikeSystem(m["content"].s) then "system"
    else ""
  }

  function WithRole(m: Fields, i: nat, soundsLikeSystem: string -> bool): Fields {
    if "role" in m then m
    else
      var inferred := InferRole(m, i, soundsLikeSystem);
      m["role" := Str(if inferred != "" then inferred else "user")]
  }

  predicate LacksContent(m: Fields) {
    "content" !in m || m["content"].Null?
  }

  function WithContent(m: Fields): Fields {
    if RoleOf(m) == "assistant" && "tool_calls" in m && LacksContent(m) then m["content" := Str("")] else m
  }

  function WithCallId(m: Fields, i: nat): Fields {
    if RoleOf(m) == "tool" && "tool_call_id" !in m then m["tool_call_id" := Str("auto_" + Decimal.Itoa(i))] else m
  }

  function FillFields(m: Fields, i: nat, soundsLikeSystem: string -> bool): Fields {
    WithCallId(WithContent(WithRole(m, i, soundsLikeSystem)), i)
  }

  function Fill(m: Value, i: nat, soundsLikeSystem: string -> bool): Value {
    if m.Obj? then Obj(FillFields(m.fields, i, soundsLikeSystem)) else m
  }

  function FillAll(msgs: seq<Value>, soundsLikeSystem: string -> bool): seq<Value> {
    seq(|msgs|, i requires 0 <= i < |msgs| => Fill(msgs[i], i, soundsLikeSystem))
  }

  predicate IsToolResult(m: Value) {
    m.Obj? && (RoleOf(m.fields) == "tool" || RoleOf(m.fields) == "function")
  }

  predicate CarriesCalls(m: Value) {
    m.Obj? && RoleOf(m.fields) == "assistant" && "tool_calls" in m.fields
  }

  /** A message without the calls it carries. */
  function Clean(m: Value): Value {
    if CarriesCalls(m) then
      var f := m.fields - {"tool_calls"};
      Obj((if LacksContent(f) then f["content" := Str("")] else f) - {"function_call"})
    else m
  }

  function CleanAll(msgs: seq<Value>): seq<Value> {
    if msgs == [] then []
    else CleanAll(msgs[..|msgs| - 1]) + if IsToolResult(msgs[|msgs| - 1]) then [] else [Clean(msgs[|msgs| - 1])]
  }

  function CountResults(msgs: seq<Value>): nat {
    if msgs == [] then 0 else CountResults(msgs[..|msgs| - 1]) + if IsToolResult(msgs[|msgs| - 1]) then 1 else 0
  }

  function CountCalls(msgs: seq<Value>): nat {
    if msgs == [] then 0 else CountCalls(msgs[..|msgs| - 1]) + if CarriesCalls(msgs[|msgs| - 1]) then 1 else 0
  }

  /** A list of messages as it is written out: a list emptied by stripping is Go's nil slice, which becomes `null`. */
  function Written(msgs: seq<Value>): Value {
    if msgs == [] then Null else Arr(msgs)
  }

  function FieldsPresent(req: Fields, names: seq<string>): seq<string> {
    if names == [] then []
    else FieldsPresent(req, names[..|names| - 1]) + if names[|names| - 1] in req then [names[|names| - 1]] else []
  }

  function Without(req: Fields, names: seq<string>): Fields {
    map k | k in req && k !in names :: req[k]
  }

  function FillRequest(req: Fields, soundsLikeSystem: string -> bool): Fields {
    if "messages" in req && req["messages"].Arr? then
      req["messages" := Arr(FillAll(req["messages"].items, soundsLikeSystem))]
    else req
  }

  function CleanRequest(req: Fields): Fields {
    if && "messages" in req && req["messages"].Arr?
       && CountResults(req["messages"].items) + CountCalls(req["messages"].items) > 0 then
      req["messages" := Written(CleanAll(req["messages"].items))]
    else req
  }

  predicate HasToolField(req: Fields) {
    exists name | name in TOOL_FIELDS :: name in req
  }

  function StripRequest(req: Fields): Fields {
    if HasToolField(req) then CleanRequest(Without(req, TOOL_FIELDS)) else req
  }

  /** The request one pass makes of `req`. */
  function Pass(c: Config, req: Fields): Fields {
    var filled := FillRequest(req, c.soundsLikeSystem);
    if c.Strips() then StripRequest(filled) else filled
  }

  // ---------- The code ----------

  class Request {
    var req: Fields
    var modified: bool
    var stripped: seq<string>
    var reason: Reason

    constructor (req: Fields)
      ensures this.req == req && !modified && stripped == [] && reason == Accepted
    {
      this.req, modified, stripped, reason := req, false, [], Accepted;
    }

    method ValidateRequiredFields()
      requires reason == Accepted
      modifies this`reason
      ensures reason == Check(req)
    {
      if "model" !in req {
        reason := NoModel;
        return;
      }
      if "messages" !in req {
        reason := NoMessages;
        return;
      }
      if !req["messages"].Arr? {
        reason := MessagesNotArray;
        return;
      }
      if |req["messages"].items| == 0 {
        reason := MessagesEmpty;
      }
    }

    /** The body of the loop over the messages. */
    static method RepairMessage(m: Fields, i: nat, soundsLikeSystem: string -> bool)
      returns (msg: Fields, repaired: bool)
      ensures msg == FillFields(m, i, soundsLikeSystem) && repaired == (msg != m)
    {
      msg, repaired := m, false;
      if "role" !in msg {
        var inferred := InferRole(msg, i, soundsLikeSystem);
        if inferred != "" {
          msg := msg["role" := Str(inferred)];
        } else {
          msg := msg["role" := Str("user")];
        }
        repaired := true;
      }
      if RoleOf(msg) == "assistant" && "tool_calls" in msg && LacksContent(msg) {
        msg := msg["content" := Str("")];
        repaired := true;
      }
      if RoleOf(msg) == "tool" && "tool_call_id" !in msg {
        msg := msg["tool_call_id" := Str("auto_" + Decimal.Itoa(i))];
        repaired := true;
      }
      FillChanges(m, i, soundsLikeSystem);
    }

    /** The loop over the messages. */
    static method RepairMessages(msgs: seq<Value>, soundsLikeSystem: string -> bool)
      returns (out: seq<Value>, repaired: bool)
      ensures out == FillAll(msgs, soundsLikeSystem) && repaired == (out != msgs)
    {
      out, repaired := [], false;
      for i := 0 to |msgs|
        invariant out == FillAll(msgs[..i], soundsLikeSystem) && repaired == (out != msgs[..i])
      {
        var msg, changed := RepairOne(msgs[i], i, soundsLikeSystem);
        OneChanged(msgs, out, i, msg);
        OneFilled(msgs, i, soundsLikeSystem);
        out := out + [msg];
        repaired := repaired || changed;
      }
      assert msgs[..|msgs|] == msgs;
    }

    static method RepairOne(m: Value, i: nat, soundsLikeSystem: string -> bool) returns (msg: Value, repaired: bool)
      ensures msg == Fill(m, i, soundsLikeSystem) && repaired == (msg != m)
    {
      if !m.Obj? {
        return m, false;
      }
      var fields;
      fields, repaired := RepairMessage(m.fields, i, soundsLikeSystem);
      msg := Obj(fields);
    }

    method SanitizeMessages(soundsLikeSystem: string -> bool)
      modifies this`req, this`modified
      ensures req == FillRequest(old(req), soundsLikeSystem)
      ensures modified == (old(modified) || req != old(req))
    {
      if "messages" !in req || !req["messages"].Arr? {
        return;
      }
      var msgs, repaired := RepairMessages(req["messages"].items, soundsLikeSystem);
      assert Arr(msgs) == req["messages"] <==> msgs == req["messages"].items;
      assert req["messages" := req["messages"]] == req;
      assert req["messages" := Arr(msgs)]["messages"] == Arr(msgs);
      req := req["messages" := Arr(msgs)];
      modified := modified || repaired;
    }

    method SanitizeToolFields(supportsTools: Option<bool>)
      modifies this`req, this`modified, this`stripped
      ensures req == if supportsTools == Some(false) then StripRequest(old(req)) else old(req)
      ensures modified == (old(modified) || (supportsTools == Some(false) && HasToolField(old(req))))
      ensures stripped == old(stripped) + if supportsTools == Some(false) then StrippedOf(old(req)) else []
    {
      if supportsTools != Some(false) {
        return;
      }
      ToolFieldsDiffer();
      var any := RemoveFields(TOOL_FIELDS);
      if any {
        modified := true;
        SanitizeToolMessages();
      }
    }

    method RemoveFields(names: seq<string>) returns (any: bool)
      requires NoRepeats(names)
      modifies this`req, this`stripped
      ensures req == Without(old(req), names) && stripped == old(stripped) + FieldsPresent(old(req), names)
      ensures any <==> exists name | name in names :: name in old(req)
    {
      any := false;
      for i := 0 to |names|
        invariant req == Without(old(req), names[..i])
        invariant stripped == old(stripped) + FieldsPresent(old(req), names[..i])
        invariant any <==> exists k | 0 <= k < i :: names[k] in old(req)
      {
        assert names[..i + 1][..i] == names[..i];
        var field := names[i];
        assert field in req <==> field in old(req);
        if field in req {
          req := req - {field};
          stripped := stripped + [field];
          any := true;
        }
      }
      assert names[..|names|] == names;
    }

    method SanitizeToolMessages()
      modifies this`req, this`modified, this`stripped
      ensures req == CleanRequest(old(req))
      ensures modified == (old(modified) || CountsOf(old(req)) != (0, 0))
      ensures stripped == old(stripped) + CountNames(CountsOf(old(req)))
    {
      if "messages" !in req || !req["messages"].Arr? {
        return;
      }
      var msgs := req["messages"].items;
      var cleaned: seq<Value> := [];
      var removedToolMsgs, removedToolCalls := 0, 0;
      for i := 0 to |msgs|
        invariant cleaned == CleanAll(msgs[..i])
        invariant removedToolMsgs == CountResults(msgs[..i]) && removedToolCalls == CountCalls(msgs[..i])
      {
        assert msgs[..i + 1][..i] == msgs[..i];
        if !msgs[i].Obj? {
          cleaned := cleaned + [msgs[i]];
          continue;
        }
        var msg := msgs[i].fields;
        var role := RoleOf(msg);
        if role == "tool" {
          removedToolMsgs := removedToolMsgs + 1;
          continue;
        }
        if role == "function" {
          removedToolMsgs := removedToolMsgs + 1;
          continue;
        }
        if role == "assistant" && "tool_calls" in msg {
          msg := msg - {"tool_calls"};
          removedToolCalls := removedToolCalls + 1;
          if LacksContent(msg) {
            msg := msg["content" := Str("")];
          }
          msg := msg - {"function_call"};
        }
        assert Obj(msg) == Clean(msgs[i]);
        cleaned := cleaned + [Obj(msg)];
      }
      assert msgs[..|msgs|] == msgs;
      if removedToolMsgs > 0 || removedToolCalls > 0 {
        req := req["messages" := Written(cleaned)];
        modified := true;
        stripped := stripped + CountNames((removedToolMsgs, removedToolCalls));
      }
    }
  }

  lemma OneFilled(msgs: seq<Value>, i: nat, f: string -> bool)
    requires i < |msgs|
    ensures FillAll(msgs[..i + 1], f) == FillAll(msgs[..i], f) + [Fill(msgs[i], i, f)]
  {
  }

  lemma OneChanged(msgs: seq<Value>, out: seq<Value>, i: nat, m: Value)
    requires |out| == i < |msgs|
    ensures out + [m] != msgs[..i + 1] <==> out != msgs[..i] || m != msgs[i]
  {
    assert msgs[..i + 1] == msgs[..i] + [msgs[i]];
    assert (out + [m])[..i] == out && (out + [m])[i] == m;
    assert msgs[..i + 1][..i] == msgs[..i] && msgs[..i + 1][i] == msgs[i];
  }

  /** How many tool results, and how many messages with calls, a request holds. */
  function CountsOf(req: Fields): (nat, nat) {
    if "messages" in req && req["messages"].Arr? then
      (CountResults(req["messages"].items), CountCalls(req["messages"].items))
    else (0, 0)
  }

  function CountNames(counts: (nat, nat)): seq<string> {
    if counts == (0, 0) then []
    else
      ["tool_messages(" + Decimal.Itoa(counts.0) + ")",
       "tool_calls_in_assistant(" + Decimal.Itoa(counts.1) + ")"]
  }

  /** What stripping `req` reports. */
  function StrippedOf(req: Fields): seq<string> {
    FieldsPresent(req, TOOL_FIELDS) + if HasToolField(req) then CountNames(CountsOf(Without(req, TOOL_FIELDS))) else []
  }

  predicate NoRepeats(names: seq<string>) {
    forall i, k | 0 <= i < k < |names| :: names[i] != names[k]
  }

  lemma ToolFieldsDiffer()
    ensures NoRepeats(TOOL_FIELDS)
  {
    assert "tools"[4] != "tool_choice"[4];
    assert |"functions"| != |"function_call"|;
  }

  /** Filling changes a message exactly when one of its three repairs applies. */
  lemma FillChanges(m: Fields, i: nat, soundsLikeSystem: string -> bool)
    ensures FillFields(m, i, soundsLikeSystem) == m
            <==> "role" in m && !(RoleOf(m) == "assistant" && "tool_calls" in m && LacksContent(m))
                 && !(RoleOf(m) == "tool" && "tool_call_id" !in m)
  {
  }

  /** One pass, as a function of what arrives. */
  function Sanitized(c: Config, body: Option<Value>): Result {
    if !c.IsChat() then Result(body, false, Accepted, [])
    else if body.None? || Struct(body.value).None? then Result(body, false, InvalidJson, [])
    else
      var req := Struct(body.value).value;
      var filled := FillRequest(req, c.soundsLikeSystem);
      var modified := filled != req || (c.Strips() && HasToolField(filled));
      Result(if modified then Some(Obj(Pass(c, req))) else body, modified, Check(req),
             if c.Strips() then StrippedOf(filled) else [])
  }

  method SanitizeRequest(c: Config, body: Option<Value>) returns (result: Result)
    ensures result == Sanitized(c, body)
  {
    if c.endpoint != "/v1/chat/completions" {
      return Result(body, false, Accepted, []);
    }
    if body.None? || Struct(body.value).None? {
      return Result(body, false, InvalidJson, []);
    }
    var r := new Request(Struct(body.value).value);
    r.ValidateRequiredFields();
    r.SanitizeMessages(c.soundsLikeSystem);
    r.SanitizeToolFields(c.supportsTools);
    return Result(if r.modified then Some(Obj(r.req)) else body, r.modified, r.reason, r.stripped);
  }

  /** A message that gives a tool request away. */
  predicate IsToolMessage(m: Value) {
    m.Obj? && ("tool_calls" in m.fields || RoleOf(m.fields) == "tool" || RoleOf(m.fields) == "function")
  }

  predicate IsToolRequest(body: Option<Value>) {
    body.Some? && body.value.Obj?
    && ((exists name | name in DETECTED_FIELDS :: name in body.value.fields)
        || ("messages" in body.value.fields && body.value.fields["messages"].Arr?
            && exists m | m in body.value.fields["messages"].items :: IsToolMessage(m)))
  }

  method HasToolCallRequest(body: Option<Value>) returns (found: bool)
    ensures found == IsToolRequest(body)
  {
    if body.None? || !body.value.Obj? {
      return false;
    }
    var req, toolFields := body.value.fields, DETECTED_FIELDS;
    for i := 0 to |toolFields|
      invariant forall k | 0 <= k < i :: toolFields[k] !in req
    {
      if toolFields[i] in req {
        return true;
      }
    }
    if "messages" in req && req["messages"].Arr? {
      var msgs := req["messages"].items;
      for i := 0 to |msgs|
        invariant forall k | 0 <= k < i :: !IsToolMessage(msgs[k])
      {
        if msgs[i].Obj? {
          if "tool_calls" in msgs[i].fields {
            assert IsToolMessage(msgs[i]);
            return true;
          }
          if RoleOf(msgs[i].fields) == "tool" || RoleOf(msgs[i].fields) == "function" {
            assert IsToolMessage(msgs[i]);
            return true;
          }
        }
      }
    }
    return false;
  }

  // ---------- What a pass does to single messages ----------

  /** A message of the client that will be dropped: a tool result, or one that will be taken for it. */
  predicate IsDropped(m: Value) {
    m.Obj? && if "role" in m.fields then RoleOf(m.fields) == "tool" || RoleOf(m.fields) == "function"
              else "tool_calls" !in m.fields && ("tool_call_id" in m.fields || "function" in m.fields)
  }

  /** A message whose calls stay, because its role is not one that carries calls. */
  predicate IsStubborn(m: Value) {
    m.Obj? && "tool_calls" in m.fields && "role" in m.fields
    && RoleOf(m.fields) != "assistant" && RoleOf(m.fields) != "tool" && RoleOf(m.fields) != "function"
  }

  /** Nothing left to fill in. */
  predicate IsSettled(m: Value) {
    m.Obj? ==>
      && "role" in m.fields
      && !(RoleOf(m.fields) == "assistant" && "tool_calls" in m.fields && LacksContent(m.fields))
      && !(RoleOf(m.fields) == "tool" && "tool_call_id" !in m.fields)
  }

  lemma FillSettles(m: Value, i: nat, f: string -> bool)
    ensures IsSettled(Fill(m, i, f)) && (IsSettled(m) ==> Fill(m, i, f) == m)
    ensures IsToolResult(Fill(m, i, f)) <==> IsDropped(m)
    ensures IsToolMessage(Fill(m, i, f)) <==> IsDropped(m) || (m.Obj? && "tool_calls" in m.fields)
  {
    if m.Obj? {
      FillChanges(m.fields, i, f);
      FilledRole(m.fields, i, f);
    }
  }

  lemma FilledRole(m: Fields, i: nat, f: string -> bool)
    ensures var filled := FillFields(m, i, f);
            && "role" in filled && ("role" in m ==> filled["role"] == m["role"])
            && RoleOf(filled) == RoleOf(WithRole(m, i, f))
            && ("tool_calls" in filled <==> "tool_calls" in m)
  {
  }

  lemma CleanSettles(m: Value)
    requires IsSettled(m) && !IsToolResult(m)
    ensures IsSettled(Clean(m)) && (!CarriesCalls(m) ==> Clean(m) == m)
    ensures IsToolMessage(Clean(m)) <==> m.Obj? && "tool_calls" in m.fields && RoleOf(m.fields) != "assistant"
  {
  }

  /** How the message the provider gets relates to the client's. */
  ghost predicate SameMessage(m: Value, out: Value) {
    if !m.Obj? then out == m
    else
      && out.Obj? && "role" in out.fields
      && (forall key | key in m.fields && key !in {"content", "tool_calls", "function_call"} ::
            key in out.fields && out.fields[key] == m.fields[key])
      && (forall key | key in out.fields && key !in {"role", "content"} :: key in m.fields)
      && ("content" in m.fields && !m.fields["content"].Null?
          ==> "content" in out.fields && out.fields["content"] == m.fields["content"])
  }

  lemma KeptIsSame(m: Value, i: nat, f: string -> bool)
    requires !IsDropped(m)
    ensures SameMessage(m, Clean(Fill(m, i, f))) && SameMessage(m, Fill(m, i, f))
  {
    FillSettles(m, i, f);
    if m.Obj? {
      var filled := FillFields(m.fields, i, f);
      FilledRole(m.fields, i, f);
      assert RoleOf(filled) != "tool";
      FilledKeys(m.fields, i, f);
    }
  }

  lemma FilledKeys(m: Fields, i: nat, f: string -> bool)
    ensures var filled := FillFields(m, i, f);
            && (forall key | key in m && key != "content" :: key in filled && filled[key] == m[key])
            && (forall key | key in filled && key !in {"role", "content", "tool_call_id"} :: key in m)
            && (RoleOf(filled) != "tool" && "tool_call_id" in filled ==> "tool_call_id" in m)
            && ("content" in m && !m["content"].Null? ==> "content" in filled && filled["content"] == m["content"])
  {
  }

  // ---------- What a pass does to the list ----------

  /** The numbers of the client's messages that are not dropped, in order. */
  function Survivors(msgs: seq<Value>): (kept: seq<nat>)
    ensures forall k | 0 <= k < |kept| :: kept[k] < |msgs| && !IsDropped(msgs[kept[k]])
    ensures forall j, k | 0 <= j < k < |kept| :: kept[j] < kept[k]
    ensures forall i | 0 <= i < |msgs| && !IsDropped(msgs[i]) :: i in kept
  {
    if msgs == [] then []
    else
      var n := |msgs| - 1;
      Survivors(msgs[..n]) + if IsDropped(msgs[n]) then [] else [n]
  }

  /** Cleaning the filled list leaves exactly the survivors, each filled and cleaned. */
  lemma {:induction false} CleanedAreSurvivors(msgs: seq<Value>, f: string -> bool)
    ensures |CleanAll(FillAll(msgs, f))| == |Survivors(msgs)|
    ensures forall k | 0 <= k < |Survivors(msgs)| ::
              CleanAll(FillAll(msgs, f))[k] == Clean(Fill(msgs[Survivors(msgs)[k]], Survivors(msgs)[k], f))
  {
    if msgs != [] {
      var n := |msgs| - 1;
      CleanedAreSurvivors(msgs[..n], f);
      assert FillAll(msgs, f)[..n] == FillAll(msgs[..n], f);
      FillSettles(msgs[n], n, f);
    }
  }

  lemma {:induction false} NothingToClean(msgs: seq<Value>)
    requires CountResults(msgs) == 0 && CountCalls(msgs) == 0
    ensures CleanAll(msgs) == msgs
  {
    if msgs != [] {
      NothingToClean(msgs[..|msgs| - 1]);
      assert msgs == msgs[..|msgs| - 1] + [msgs[|msgs| - 1]];
    }
  }

  /** The messages field of a stripped request. */
  lemma StrippedMessages(c: Config, req: Fields)
    requires c.Strips() && HasToolField(req) && Check(req) == Accepted
    ensures var msgs := req["messages"].items;
            "messages" in Pass(c, req)
            && Pass(c, req)["messages"] == Written(CleanAll(FillAll(msgs, c.soundsLikeSystem)))
  {
    var msgs := req["messages"].items;
    var filled := FillRequest(req, c.soundsLikeSystem);
    FilledTop(req, c.soundsLikeSystem);
    NotAToolField();
    var rest := Without(filled, TOOL_FIELDS);
    assert rest["messages"] == Arr(FillAll(msgs, c.soundsLikeSystem));
    if CountResults(rest["messages"].items) + CountCalls(rest["messages"].items) == 0 {
      NothingToClean(FillAll(msgs, c.soundsLikeSystem));
    }
  }

  lemma FilledTop(req: Fields, f: string -> bool)
    ensures FillRequest(req, f).Keys == req.Keys && (HasToolField(FillRequest(req, f)) <==> HasToolField(req))
    ensures Check(FillRequest(req, f)) == Check(req)
  {
    assert forall name :: name in FillRequest(req, f) <==> name in req;
    if "messages" in req && req["messages"].Arr? {
      assert |FillAll(req["messages"].items, f)| == |req["messages"].items|;
    }
  }

  lemma NotAToolField()
    ensures "messages" !in TOOL_FIELDS && "model" !in TOOL_FIELDS
    ensures forall name | name in DETECTED_FIELDS :: name in TOOL_FIELDS
  {
    assert "messages"[0] == 'm' && "model"[0] == 'm';
    assert forall name | name in TOOL_FIELDS :: name[0] != 'm';
    assert DETECTED_FIELDS == TOOL_FIELDS[..4];
  }

  /** Exactly the messages that are no tool results reach the provider, in their order and otherwise as they were. */
  lemma NonToolMessagesStay(c: Config, req: Fields)
    requires c.IsChat() && c.Strips() && HasToolField(req) && Check(req) == Accepted
    ensures var msgs, out := req["messages"].items, Pass(c, req);
            && "messages" in out
            && out["messages"] == Written(Delivered(c, msgs))
            && |Delivered(c, msgs)| == |Survivors(msgs)|
            && forall k | 0 <= k < |Survivors(msgs)| :: SameMessage(msgs[Survivors(msgs)[k]], Delivered(c, msgs)[k])
  {
    var msgs := req["messages"].items;
    StrippedMessages(c, req);
    CleanedAreSurvivors(msgs, c.soundsLikeSystem);
    forall k | 0 <= k < |Survivors(msgs)| ensures SameMessage(msgs[Survivors(msgs)[k]], Delivered(c, msgs)[k]) {
      KeptIsSame(msgs[Survivors(msgs)[k]], Survivors(msgs)[k], c.soundsLikeSystem);
    }
  }

  function Delivered(c: Config, msgs: seq<Value>): seq<Value> {
    CleanAll(FillAll(msgs, c.soundsLikeSystem))
  }

  lemma DeliveredToolMessages(c: Config, msgs: seq<Value>)
    ensures (exists m | m in Delivered(c, msgs) :: IsToolMessage(m)) <==> exists m | m in msgs :: IsStubborn(m)
  {
    var kept, out := Survivors(msgs), Delivered(c, msgs);
    CleanedAreSurvivors(msgs, c.soundsLikeSystem);
    forall k | 0 <= k < |kept| ensures IsToolMessage(out[k]) <==> IsStubborn(msgs[kept[k]]) {
      DeliveredIsTool(msgs[kept[k]], kept[k], c.soundsLikeSystem);
    }
    if i :| 0 <= i < |msgs| && IsStubborn(msgs[i]) {
      var k :| 0 <= k < |kept| && kept[k] == i;
      assert IsToolMessage(out[k]);
    }
  }

  lemma DeliveredIsTool(m: Value, i: nat, f: string -> bool)
    requires !IsDropped(m)
    ensures IsToolMessage(Clean(Fill(m, i, f))) <==> IsStubborn(m)
  {
    FillSettles(m, i, f);
    CleanSettles(Fill(m, i, f));
    if m.Obj? {
      FilledRole(m.fields, i, f);
    }
  }

  lemma FilledToolMessages(msgs: seq<Value>, f: string -> bool)
    ensures (exists m | m in FillAll(msgs, f) :: IsToolMessage(m))
            <==> exists m | m in msgs :: IsDropped(m) || (m.Obj? && "tool_calls" in m.fields)
  {
    var out := FillAll(msgs, f);
    forall i | 0 <= i < |msgs|
      ensures IsToolMessage(out[i]) <==> IsDropped(msgs[i]) || (msgs[i].Obj? && "tool_calls" in msgs[i].fields)
    {
      FillSettles(msgs[i], i, f);
    }
    if i :| 0 <= i < |msgs| && (IsDropped(msgs[i]) || (msgs[i].Obj? && "tool_calls" in msgs[i].fields)) {
      assert IsToolMessage(out[i]);
    }
  }

  /** A message that stripping leaves as it is, or any tool message if there is no tool field to start the stripping. */
  predicate EscapesStripping(req: Fields)
    requires Check(req) == Accepted
  {
    exists m | m in req["messages"].items ::
      if HasToolField(req) then IsStubborn(m) else IsDropped(m) || (m.Obj? && "tool_calls" in m.fields)
  }

  /** When a valid request still looks like a tool request to a provider without tools: stripping starts only from a
      tool field at the top, and then reaches everything but calls on a message of some other role. */
  lemma StrippingIsComplete(c: Config, req: Fields)
    requires c.IsChat() && c.Strips() && Check(req) == Accepted
    ensures IsToolRequest(Sanitized(c, Some(Obj(req))).body) <==> EscapesStripping(req)
  {
    var msgs, out := req["messages"].items, Pass(c, req);
    PassIsWritten(c, req);
    NotAToolField();
    FilledTop(req, c.soundsLikeSystem);
    assert forall name | name in out :: name in req;
    if HasToolField(req) {
      StrippedMessages(c, req);
      DeliveredToolMessages(c, msgs);
      assert forall name | name in DETECTED_FIELDS :: name !in out;
    } else {
      FilledToolMessages(msgs, c.soundsLikeSystem);
      assert forall name | name in DETECTED_FIELDS :: name !in out;
    }
  }

  lemma PassIsWritten(c: Config, req: Fields)
    requires c.IsChat()
    ensures Sanitized(c, Some(Obj(req))).body == Some(Obj(Pass(c, req)))
  {
  }

  /** The property as the gateway's comments promise it, for the requests that meet its silent assumptions. */
  lemma ProviderSeesNoTools(c: Config, req: Fields)
    requires c.IsChat() && c.Strips() && Check(req) == Accepted && HasToolField(req)
    requires forall m | m in req["messages"].items && m.Obj? && "tool_calls" in m.fields ::
               "role" !in m.fields || RoleOf(m.fields) == "assistant"
    ensures !IsToolRequest(Sanitized(c, Some(Obj(req))).body)
  {
    StrippingIsComplete(c, req);
  }

  // ---------- A second pass ----------

  lemma {:induction false} DeliveredSettled(msgs: seq<Value>, f: string -> bool)
    ensures forall m | m in FillAll(msgs, f) :: IsSettled(m)
    ensures forall m | m in CleanAll(FillAll(msgs, f)) :: IsSettled(m)
  {
    forall i | 0 <= i < |msgs| ensures IsSettled(FillAll(msgs, f)[i]) {
      FillSettles(msgs[i], i, f);
    }
    CleanedAreSurvivors(msgs, f);
    var kept := Survivors(msgs);
    forall k | 0 <= k < |kept| ensures IsSettled(CleanAll(FillAll(msgs, f))[k]) {
      FillSettles(msgs[kept[k]], kept[k], f);
      CleanSettles(Fill(msgs[kept[k]], kept[k], f));
    }
  }

  lemma SettledStays(msgs: seq<Value>, f: string -> bool)
    requires forall m | m in msgs :: IsSettled(m)
    ensures FillAll(msgs, f) == msgs
  {
    forall i | 0 <= i < |msgs| ensures FillAll(msgs, f)[i] == msgs[i] {
      FillSettles(msgs[i], i, f);
    }
  }

  /** Stripping took every message there was. */
  predicate IsEmptied(c: Config, req: Fields) {
    c.Strips() && HasToolField(req) && Check(req) == Accepted && forall m | m in req["messages"].items :: IsDropped(m)
  }

  lemma FilledIsSettled(req: Fields, f: string -> bool)
    ensures FillRequest(FillRequest(req, f), f) == FillRequest(req, f)
  {
    if "messages" in req && req["messages"].Arr? {
      var msgs := req["messages"].items;
      DeliveredSettled(msgs, f);
      SettledStays(FillAll(msgs, f), f);
    }
  }

  lemma SettledRequest(req: Fields, f: string -> bool)
    requires "messages" in req && req["messages"].Arr? ==> forall m | m in req["messages"].items :: IsSettled(m)
    ensures FillRequest(req, f) == req
  {
    if "messages" in req && req["messages"].Arr? {
      SettledStays(req["messages"].items, f);
      assert req["messages" := req["messages"]] == req;
    }
  }

  lemma PassIsStable(c: Config, req: Fields)
    ensures FillRequest(Pass(c, req), c.soundsLikeSystem) == Pass(c, req)
    ensures c.Strips() ==> !HasToolField(Pass(c, req))
  {
    var f := c.soundsLikeSystem;
    var filled := FillRequest(req, f);
    FilledIsSettled(req, f);
    if c.Strips() && HasToolField(filled) {
      NotAToolField();
      if "messages" in req && req["messages"].Arr? {
        DeliveredSettled(req["messages"].items, f);
      }
      SettledRequest(Pass(c, req), f);
    }
  }

  lemma PassKeys(c: Config, req: Fields)
    ensures "model" in Pass(c, req) <==> "model" in req
    ensures "messages" in Pass(c, req) <==> "messages" in req
  {
    FilledTop(req, c.soundsLikeSystem);
    NotAToolField();
  }

  lemma RejectedStaysRejected(c: Config, req: Fields)
    requires Check(req) != Accepted
    ensures Check(Pass(c, req)) == Check(req)
  {
    PassKeys(c, req);
    if "messages" in req {
      var filled := FillRequest(req, c.soundsLikeSystem);
      if req["messages"].Arr? && req["messages"].items == [] {
        assert FillAll([], c.soundsLikeSystem) == [];
      }
      if "model" in req {
        assert filled["messages"] == req["messages"];
        NotAToolField();
        assert Pass(c, req)["messages"] == req["messages"];
      }
    }
  }

  lemma NoSurvivors(msgs: seq<Value>, f: string -> bool)
    ensures CleanAll(FillAll(msgs, f)) == [] <==> forall m | m in msgs :: IsDropped(m)
  {
    CleanedAreSurvivors(msgs, f);
    if Survivors(msgs) != [] {
      assert msgs[Survivors(msgs)[0]] in msgs;
    } else {
      assert forall i | 0 <= i < |msgs| :: IsDropped(msgs[i]);
    }
  }

  lemma AcceptedUnlessEmptied(c: Config, req: Fields)
    requires Check(req) == Accepted
    ensures Check(Pass(c, req)) == if IsEmptied(c, req) then MessagesNotArray else Accepted
  {
    PassKeys(c, req);
    if c.Strips() && HasToolField(req) {
      StrippedMessages(c, req);
      NoSurvivors(req["messages"].items, c.soundsLikeSystem);
    } else {
      FilledTop(req, c.soundsLikeSystem);
    }
  }

  lemma {:induction false} NothingPresent(req: Fields, names: seq<string>)
    requires forall name | name in names :: name !in req
    ensures FieldsPresent(req, names) == []
  {
    if names != [] {
      NothingPresent(req, names[..|names| - 1]);
    }
  }

  /** A second pass never changes anything, and still accepts what the first accepted unless stripping emptied it. */
  lemma SecondPassChangesNothing(c: Config, body: Option<Value>)
    ensures var first := Sanitized(c, body);
            var second := Sanitized(c, first.body);
            && !second.modified && second.body == first.body
            && (second.Valid()
                <==> first.Valid() && !(c.IsChat() && body.value.Obj? && IsEmptied(c, body.value.fields)))
  {
    if c.IsChat() && body.Some? && Struct(body.value).Some? {
      var req := Struct(body.value).value;
      PassIsStable(c, req);
      if Check(req) == Accepted {
        AcceptedUnlessEmptied(c, req);
      } else {
        RejectedStaysRejected(c, req);
      }
      FilledTop(req, c.soundsLikeSystem);
    }
  }

  /** Tool messages without a tool field at the top pass a provider without tools untouched. */
  lemma ToolResultSlipsThrough(f: string -> bool) returns (c: Config, req: Fields)
    ensures c.IsChat() && c.Strips() && Check(req) == Accepted
    ensures Sanitized(c, Some(Obj(req))) == Result(Some(Obj(req)), false, Accepted, [])
    ensures IsToolRequest(Some(Obj(req)))
  {
    c := Config("/v1/chat/completions", Some(false), f);
    var m := Obj(map["role" := Str("tool"), "tool_call_id" := Str("1")]);
    req := map["model" := Str("m"), "messages" := Arr([m])];
    assert IsDropped(m);
    SettledRequest(req, f) by { assert IsSettled(m); }
    NotAToolField();
    assert !HasToolField(req);
    NothingPresent(req, TOOL_FIELDS);
    StrippingIsComplete(c, req);
  }
}
