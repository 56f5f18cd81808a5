/** What cleaning a chat request does to it, field by field and message by message. */
module Cleaning {
  import opened Json
  import opened Sanitizer
  import Decimal

  // ---------- One message ----------

  /** The role after the repair of message number `i`. */
  predicate HasItsRole(m: Fields, i: nat, soundsLikeSystem: string -> bool, out: Fields) {
    && "role" in out
    && ("role" in m ==> out["role"] == m["role"])
    && ("role" !in m && "tool_calls" in m ==> out["role"] == Str("assistant"))
    && ("role" !in m && "tool_calls" !in m && "tool_call_id" in m ==> out["role"] == Str("tool"))
    && ("role" !in m && "tool_calls" !in m && "tool_call_id" !in m && "function" in m ==>
          out["role"] == Str("function"))
    && ("role" !in m && "tool_calls" !in m && "tool_call_id" !in m && "function" !in m ==>
          if i == 0 && "content" in m && m["content"].Str? && soundsLikeSystem(m["content"].s)
          then out["role"] == Str("system")
          else out["role"] == Str("user"))
  }

  predicate SameField(key: string, m: Fields, out: Fields) {
    (key in out <==> key in m) && (key in m ==> out[key] == m[key])
  }

  /** A repaired message has its role, an assistant's calls come with a content, a tool result with an identifier, and
      nothing else is touched. */
  ghost predicate IsRepaired(m: Fields, i: nat, soundsLikeSystem: string -> bool, out: Fields) {
    && HasItsRole(m, i, soundsLikeSystem, out)
    && (if out["role"] == Str("assistant") && "tool_calls" in m && ("content" !in m || m["content"] == Null)
        then "content" in out && out["content"] == Str("")
        else SameField("content", m, out))
    && (if out["role"] == Str("tool") && "tool_call_id" !in m
        then "tool_call_id" in out && out["tool_call_id"] == Str("auto_" + Decimal.Itoa(i))
        else SameField("tool_call_id", m, out))
    && forall key | key !in {"role", "content", "tool_call_id"} :: SameField(key, m, out)
  }

  lemma FilledIsRepaired(m: Fields, i: nat, f: string -> bool)
    ensures IsRepaired(m, i, f, FillFields(m, i, f))
  {
    RoleIsText(WithRole(m, i, f));
    RoleIsText(WithContent(WithRole(m, i, f)));
  }

  lemma RoleIsText(m: Fields)
    requires "role" in m
    ensures RoleOf(m) == "assistant" <==> m["role"] == Str("assistant")
    ensures RoleOf(m) == "tool" <==> m["role"] == Str("tool")
    ensures RoleOf(m) == "function" <==> m["role"] == Str("function")
  {
  }

  /** A repaired message without the calls an assistant makes in it. */
  ghost predicate IsTakenOff(m: Fields, out: Fields) {
    if "role" in m && m["role"] == Str("assistant") && "tool_calls" in m then
      && "tool_calls" !in out && "function_call" !in out && "content" in out
      && out["content"] == (if "content" !in m || m["content"] == Null then Str("") else m["content"])
      && forall key | key !in {"tool_calls", "function_call", "content"} :: SameField(key, m, out)
    else out == m
  }

  lemma CleanedIsTakenOff(m: Fields)
    ensures Clean(Obj(m)).Obj? && IsTakenOff(m, Clean(Obj(m)).fields)
  {
    if "role" in m {
      RoleIsText(m);
    }
  }

  /** A tool result, or a message that is taken for one. */
  predicate IsGone(m: Value) {
    m.Obj?
    && if "role" in m.fields then m.fields["role"] == Str("tool") || m.fields["role"] == Str("function")
       else "tool_calls" !in m.fields && ("tool_call_id" in m.fields || "function" in m.fields)
  }

  lemma GoneIsDropped(m: Value)
    ensures IsGone(m) <==> IsDropped(m)
  {
    if m.Obj? && "role" in m.fields {
      RoleIsText(m.fields);
    }
  }

  ghost predicate IsRepairedAs(m: Value, i: nat, f: string -> bool, out: Value) {
    if m.Obj? then out.Obj? && IsRepaired(m.fields, i, f, out.fields) else out == m
  }

  ghost predicate IsDeliveredAs(m: Value, i: nat, f: string -> bool, out: Value) {
    if m.Obj? then out.Obj? && exists mid :: IsRepaired(m.fields, i, f, mid) && IsTakenOff(mid, out.fields)
    else out == m
  }

  lemma FilledIsRepairedAs(m: Value, i: nat, f: string -> bool)
    ensures IsRepairedAs(m, i, f, Fill(m, i, f)) && IsDeliveredAs(m, i, f, Clean(Fill(m, i, f)))
  {
    if m.Obj? {
      FilledIsRepaired(m.fields, i, f);
      CleanedIsTakenOff(FillFields(m.fields, i, f));
    }
  }

  // ---------- All messages ----------

  /** The places of the messages that stay. */
  ghost predicate Stay(msgs: seq<Value>, kept: seq<nat>) {
    && (forall k | 0 <= k < |kept| :: kept[k] < |msgs| && !IsGone(msgs[kept[k]]))
    && (forall j, k | 0 <= j < k < |kept| :: kept[j] < kept[k])
    && forall i | 0 <= i < |msgs| && !IsGone(msgs[i]) :: i in kept
  }

  /** The messages that stay, each repaired and without calls; an emptied list is written as `null`. */
  ghost predicate IsDelivered(msgs: seq<Value>, f: string -> bool, kept: seq<nat>, out: Value) {
    && Stay(msgs, kept)
    && (kept == [] ==> out == Null)
    && (kept != [] ==>
          out.Arr? && |out.items| == |kept|
          && forall k | 0 <= k < |kept| :: IsDeliveredAs(msgs[kept[k]], kept[k], f, out.items[k]))
  }

  lemma SurvivorsStay(msgs: seq<Value>, f: string -> bool)
    ensures IsDelivered(msgs, f, Survivors(msgs), Written(CleanAll(FillAll(msgs, f))))
  {
    var kept := Survivors(msgs);
    CleanedAreSurvivors(msgs, f);
    forall i | 0 <= i < |msgs| ensures IsGone(msgs[i]) <==> IsDropped(msgs[i]) {
      GoneIsDropped(msgs[i]);
    }
    forall k | 0 <= k < |kept|
      ensures IsDeliveredAs(msgs[kept[k]], kept[k], f, CleanAll(FillAll(msgs, f))[k])
    {
      FilledIsRepairedAs(msgs[kept[k]], kept[k], f);
    }
  }

  ghost predicate AllRepaired(msgs: seq<Value>, f: string -> bool, out: Value) {
    out.Arr? && |out.items| == |msgs| && forall i | 0 <= i < |msgs| :: IsRepairedAs(msgs[i], i, f, out.items[i])
  }

  // ---------- The request ----------

  predicate IsToolKey(key: string) {
    || key == "tools" || key == "tool_choice" || key == "functions" || key == "function_call"
    || key == "parallel_tool_calls"
  }

  predicate NamesTool(req: Fields) {
    || "tools" in req || "tool_choice" in req || "functions" in req || "function_call" in req
    || "parallel_tool_calls" in req
  }

  lemma ToolKeys(req: Fields)
    ensures forall key :: key in TOOL_FIELDS <==> IsToolKey(key)
    ensures HasToolField(req) <==> NamesTool(req)
  {
    forall key ensures key in TOOL_FIELDS <==> IsToolKey(key) {
      if IsToolKey(key) {
        assert TOOL_FIELDS[0] == "tools" && TOOL_FIELDS[1] == "tool_choice" && TOOL_FIELDS[2] == "functions";
        assert TOOL_FIELDS[3] == "function_call" && TOOL_FIELDS[4] == "parallel_tool_calls";
      }
    }
    if NamesTool(req) {
      var key :| IsToolKey(key) && key in req;
      assert key in TOOL_FIELDS;
    }
  }

  /** Why a request is turned away: the first of the four faults. */
  predicate TellsFault(req: Fields, reason: Reason) {
    && ("model" !in req ==> reason == NoModel)
    && ("model" in req && "messages" !in req ==> reason == NoMessages)
    && ("model" in req && "messages" in req && !req["messages"].Arr? ==> reason == MessagesNotArray)
    && ("model" in req && "messages" in req && req["messages"] == Arr([]) ==> reason == MessagesEmpty)
    && ("model" in req && "messages" in req && req["messages"].Arr? && req["messages"] != Arr([]) ==>
          reason == Accepted)
  }

  predicate HasMessages(req: Fields) {
    "messages" in req && req["messages"].Arr?
  }

  /** What a provider that takes tools is sent, or one that was not asked about: the messages repaired and every other
      field as it was. */
  lemma OthersAreKept(c: Config, req: Fields)
    requires c.endpoint == "/v1/chat/completions" && c.supportsTools != Some(false)
    ensures var r := Sanitized(c, Some(Obj(req)));
            && r.body.Some? && r.body.value.Obj? && TellsFault(req, r.reason) && r.stripped == []
            && (r.modified <==> r.body != Some(Obj(req)))
            && (forall key | key != "messages" || !HasMessages(req) :: SameField(key, req, r.body.value.fields))
            && (HasMessages(req) ==>
                  "messages" in r.body.value.fields
                  && AllRepaired(req["messages"].items, c.soundsLikeSystem, r.body.value.fields["messages"]))
  {
    RepairsAll(req, c.soundsLikeSystem);
  }

  lemma RepairsAll(req: Fields, f: string -> bool)
    ensures var out := FillRequest(req, f);
            && (forall key | key != "messages" || !HasMessages(req) :: SameField(key, req, out))
            && (HasMessages(req) ==>
                  "messages" in out && AllRepaired(req["messages"].items, f, out["messages"]))
  {
    if HasMessages(req) {
      var msgs := req["messages"].items;
      forall i | 0 <= i < |msgs| ensures IsRepairedAs(msgs[i], i, f, FillAll(msgs, f)[i]) {
        FilledIsRepairedAs(msgs[i], i, f);
      }
    }
  }

  /** No tool field at the top, and if there was one, the messages that stay without their calls; else the messages
      repaired. Every other field is as it was. */
  ghost predicate IsWithoutTools(req: Fields, f: string -> bool, out: Fields) {
    && (forall key | IsToolKey(key) :: key !in out)
    && (forall key | !IsToolKey(key) && (key != "messages" || !HasMessages(req)) :: SameField(key, req, out))
    && (HasMessages(req) ==> "messages" in out)
    && (HasMessages(req) && !NamesTool(req) ==> AllRepaired(req["messages"].items, f, out["messages"]))
    && (HasMessages(req) && req["messages"] != Arr([]) && NamesTool(req) ==>
          exists kept :: IsDelivered(req["messages"].items, f, kept, out["messages"]))
  }

  /** What a provider without tools is sent. */
  lemma ToolsAreTakenOut(c: Config, req: Fields)
    requires c.endpoint == "/v1/chat/completions" && c.supportsTools == Some(false)
    ensures var r := Sanitized(c, Some(Obj(req)));
            && r.body.Some? && r.body.value.Obj? && TellsFault(req, r.reason)
            && IsWithoutTools(req, c.soundsLikeSystem, r.body.value.fields)
  {
    PassIsWritten(c, req);
    StrippedIsWithoutTools(req, c.soundsLikeSystem);
  }

  lemma StrippedIsWithoutTools(req: Fields, f: string -> bool)
    ensures IsWithoutTools(req, f, StripRequest(FillRequest(req, f)))
  {
    var filled := FillRequest(req, f);
    FilledNames(req, f);
    RepairsAll(req, f);
    WhatStrippingKeeps(filled);
    if HasMessages(req) && req["messages"] != Arr([]) && NamesTool(req) {
      var msgs := req["messages"].items;
      assert filled["messages"] == Arr(FillAll(msgs, f));
      StrippedIsWritten(filled);
      SurvivorsStay(msgs, f);
    }
  }

  lemma FilledNames(req: Fields, f: string -> bool)
    ensures NamesTool(FillRequest(req, f)) <==> NamesTool(req)
    ensures HasMessages(FillRequest(req, f)) <==> HasMessages(req)
  {
    FilledTop(req, f);
    ToolKeys(req);
    ToolKeys(FillRequest(req, f));
  }

  lemma WhatStrippingKeeps(req: Fields)
    ensures var out := StripRequest(req);
            && (forall key | IsToolKey(key) :: key !in out)
            && (forall key | !IsToolKey(key) && (key != "messages" || !HasMessages(req)) :: SameField(key, req, out))
            && (!NamesTool(req) ==> out == req)
            && (HasMessages(req) ==> "messages" in out)
  {
    ToolKeys(req);
    assert !IsToolKey("messages") by { NotAToolField(); }
    if !NamesTool(req) {
      forall key | IsToolKey(key) ensures key !in req {
      }
    }
  }

  lemma StrippedIsWritten(req: Fields)
    requires HasMessages(req) && NamesTool(req) && req["messages"] != Arr([])
    ensures "messages" in StripRequest(req)
            && StripRequest(req)["messages"] == Written(CleanAll(req["messages"].items))
  {
    ToolKeys(req);
    NotAToolField();
    NothingLost(req["messages"].items);
  }

  lemma NothingLost(msgs: seq<Value>)
    requires msgs != []
    ensures CountResults(msgs) + CountCalls(msgs) == 0 ==> Written(CleanAll(msgs)) == Arr(msgs)
  {
    if CountResults(msgs) == 0 && CountCalls(msgs) == 0 {
      NothingToClean(msgs);
    }
  }

  /** Requests to other endpoints pass, and what is no object is turned away, both untouched. `null` counts as an object
      without fields. */
  lemma OtherBodies(c: Config, body: Option<Value>)
    ensures c.endpoint != "/v1/chat/completions" ==> Sanitized(c, body) == Result(body, false, Accepted, [])
    ensures c.endpoint == "/v1/chat/completions" && body == None ==>
              Sanitized(c, body) == Result(None, false, InvalidJson, [])
    ensures c.endpoint == "/v1/chat/completions" && body.Some? && !body.value.Obj? && body.value != Null ==>
              Sanitized(c, body) == Result(body, false, InvalidJson, [])
    ensures c.endpoint == "/v1/chat/completions" && body == Some(Null) ==>
              Sanitized(c, body).reason == NoModel && !Sanitized(c, body).modified && Sanitized(c, body).body == body
  {
    if body == Some(Null) {
      ToolKeys(map[]);
    }
  }

  // ---------- The report ----------

  /** An assistant's message with calls, or one that is taken for it. */
  predicate IsCalling(m: Value) {
    && m.Obj? && "tool_calls" in m.fields
    && ("role" !in m.fields || m.fields["role"] == Str("assistant"))
  }

  ghost function Gone(msgs: seq<Value>): set<nat> {
    set i | 0 <= i < |msgs| && IsGone(msgs[i])
  }

  ghost function Calling(msgs: seq<Value>): set<nat> {
    set i | 0 <= i < |msgs| && IsCalling(msgs[i])
  }

  lemma {:induction false} CountsAreSizes(msgs: seq<Value>, f: string -> bool)
    ensures CountResults(FillAll(msgs, f)) == |Gone(msgs)| && CountCalls(FillAll(msgs, f)) == |Calling(msgs)|
  {
    if msgs == [] {
      assert Gone(msgs) == {} && Calling(msgs) == {};
    } else {
      var n := |msgs| - 1;
      CountsAreSizes(msgs[..n], f);
      CountsOneMore(msgs, f);
      OneCounts(msgs[n], n, f);
      OneMoreInSet(msgs);
    }
  }

  lemma CountsOneMore(msgs: seq<Value>, f: string -> bool)
    requires msgs != []
    ensures var n := |msgs| - 1;
            var last := Fill(msgs[n], n, f);
            && CountResults(FillAll(msgs, f))
               == CountResults(FillAll(msgs[..n], f)) + (if IsToolResult(last) then 1 else 0)
            && CountCalls(FillAll(msgs, f))
               == CountCalls(FillAll(msgs[..n], f)) + if CarriesCalls(last) then 1 else 0
  {
    assert FillAll(msgs, f)[..|msgs| - 1] == FillAll(msgs[..|msgs| - 1], f);
  }

  lemma OneMoreInSet(msgs: seq<Value>)
    requires msgs != []
    ensures var n := |msgs| - 1;
            && |Gone(msgs)| == |Gone(msgs[..n])| + (if IsGone(msgs[n]) then 1 else 0)
            && |Calling(msgs)| == |Calling(msgs[..n])| + if IsCalling(msgs[n]) then 1 else 0
  {
    var n := |msgs| - 1;
    assert Gone(msgs) == Gone(msgs[..n]) + if IsGone(msgs[n]) then {n} else {};
    assert Calling(msgs) == Calling(msgs[..n]) + if IsCalling(msgs[n]) then {n} else {};
  }

  lemma OneCounts(m: Value, i: nat, f: string -> bool)
    ensures IsToolResult(Fill(m, i, f)) <==> IsGone(m)
    ensures CarriesCalls(Fill(m, i, f)) <==> IsCalling(m)
  {
    FillSettles(m, i, f);
    GoneIsDropped(m);
    if m.Obj? {
      FilledRole(m.fields, i, f);
      if "role" in m.fields {
        RoleIsText(m.fields);
      }
    }
  }

  function IfPresent(req: Fields, key: string): seq<string> {
    if key in req then [key] else []
  }

  /** What is reported as taken out: the tool fields that were there, and how many messages went or lost their calls. */
  lemma ReportTells(c: Config, req: Fields)
    requires c.endpoint == "/v1/chat/completions" && c.supportsTools == Some(false) && HasMessages(req)
    ensures var gone, calling := |Gone(req["messages"].items)|, |Calling(req["messages"].items)|;
            Sanitized(c, Some(Obj(req))).stripped
            == IfPresent(req, "tools") + IfPresent(req, "tool_choice") + IfPresent(req, "functions")
               + IfPresent(req, "function_call") + IfPresent(req, "parallel_tool_calls")
               + if !NamesTool(req) || (gone == 0 && calling == 0) then []
                 else ["tool_messages(" + Decimal.Itoa(gone) + ")",
                       "tool_calls_in_assistant(" + Decimal.Itoa(calling) + ")"]
  {
    var f, msgs := c.soundsLikeSystem, req["messages"].items;
    var filled := FillRequest(req, f);
    FilledNames(req, f);
    ToolKeys(filled);
    CountsAreSizes(msgs, f);
    FivePresent(filled);
    NotAToolField();
    assert Without(filled, TOOL_FIELDS)["messages"] == Arr(FillAll(msgs, f));
  }

  lemma FivePresent(req: Fields)
    ensures FieldsPresent(req, TOOL_FIELDS)
         == IfPresent(req, "tools") + IfPresent(req, "tool_choice") + IfPresent(req, "functions")
            + IfPresent(req, "function_call") + IfPresent(req, "parallel_tool_calls")
  {
    var names := TOOL_FIELDS;
    assert names[..5] == names;
    assert names[..4][..3] == names[..3] && names[..3][..2] == names[..2] && names[..2][..1] == names[..1];
    assert FieldsPresent(req, names[..1]) == IfPresent(req, "tools");
    assert FieldsPresent(req, names[..2]) == FieldsPresent(req, names[..1]) + IfPresent(req, "tool_choice");
    assert FieldsPresent(req, names[..3]) == FieldsPresent(req, names[..2]) + IfPresent(req, "functions");
    assert FieldsPresent(req, names[..4]) == FieldsPresent(req, names[..3]) + IfPresent(req, "function_call");
  }

  // ---------- Detection ----------

  predicate ShowsTools(m: Value) {
    m.Obj?
    && ("tool_calls" in m.fields
        || ("role" in m.fields && (m.fields["role"] == Str("tool") || m.fields["role"] == Str("function"))))
  }

  /** What counts as a tool request. */
  lemma DetectedExactly(req: Fields)
    ensures IsToolRequest(Some(Obj(req)))
            <==> || "tools" in req || "tool_choice" in req || "functions" in req || "function_call" in req
                 || (HasMessages(req) && exists i | 0 <= i < |req["messages"].items| ::
                       ShowsTools(req["messages"].items[i]))
  {
    assert DETECTED_FIELDS[0] == "tools" && DETECTED_FIELDS[1] == "tool_choice";
    assert DETECTED_FIELDS[2] == "functions" && DETECTED_FIELDS[3] == "function_call";
    if HasMessages(req) {
      var msgs := req["messages"].items;
      forall i | 0 <= i < |msgs| ensures ShowsTools(msgs[i]) <==> IsToolMessage(msgs[i]) {
        if msgs[i].Obj? && "role" in msgs[i].fields {
          RoleIsText(msgs[i].fields);
        }
      }
    }
  }
}
