/** What recall puts into a request, what it costs, and what is stored of an exchange, in terms of the texts. */
module Recalling {
  import opened Json
  import opened SessionMemory
  import opened SessionStorage

  // ---------- Costs ----------

  /** Chinese, Japanese and Korean characters. */
  predicate IsIdeograph(c: char) {
    || '\U{4E00}' <= c <= '\U{9FFF}' || '\U{3040}' <= c <= '\U{30FF}'
    || '\U{AC00}' <= c <= '\U{D7AF}' || '\U{3400}' <= c <= '\U{4DBF}'
  }

  ghost function Ideographs(text: string): set<nat> {
    set i | 0 <= i < |text| && IsIdeograph(text[i])
  }

  lemma SameCharacters(c: char)
    ensures IsCJK(c) <==> IsIdeograph(c)
  {
  }

  lemma OneMoreIdeograph(text: string)
    requires text != ""
    ensures var n := |text| - 1;
            Ideographs(text) == Ideographs(text[..n]) + if IsIdeograph(text[n]) then {n} else {}
  {
  }

  lemma {:induction false} CountIsSize(text: string)
    ensures CountCJK(text) == |Ideographs(text)| && CountOther(text) == |text| - |Ideographs(text)|
  {
    if text == "" {
      assert Ideographs(text) == {};
    } else {
      var n := |text| - 1;
      CountIsSize(text[..n]);
      SameCharacters(text[n]);
      OneMoreIdeograph(text);
      assert n !in Ideographs(text[..n]);
    }
  }

  /** An ideograph costs a token, and up to four other characters cost one together. */
  lemma EstimateCounts(text: string)
    ensures Estimate(text) == |Ideographs(text)| + (|text| - |Ideographs(text)| + 3) / 4
  {
    CountIsSize(text);
  }

  /** The turns chosen fit the budget, and with one turn more they would not. */
  lemma FilledToTheBudget(turns: seq<Turn>, budget: nat, cutoff: nat, costs: seq<nat>)
    requires LongestFit(turns, budget, cutoff)
    requires |costs| == |turns| && forall i | 0 <= i < |turns| :: costs[i] == Estimate(turns[i].content)
    ensures Sum(costs[cutoff..]) <= budget && (cutoff > 0 ==> Sum(costs[cutoff - 1..]) > budget)
  {
    CostIsSum(turns[cutoff..], costs[cutoff..]);
    if cutoff > 0 {
      CostIsSum(turns[cutoff - 1..], costs[cutoff - 1..]);
    }
  }

  function Sum(costs: seq<nat>): nat {
    if costs == [] then 0 else Sum(costs[..|costs| - 1]) + costs[|costs| - 1]
  }

  lemma {:induction false} CostIsSum(turns: seq<Turn>, costs: seq<nat>)
    requires |costs| == |turns| && forall i | 0 <= i < |turns| :: costs[i] == Estimate(turns[i].content)
    ensures Cost(turns) == Sum(costs)
  {
    if turns != [] {
      var n := |turns| - 1;
      CostIsSum(turns[..n], costs[..n]);
      CostSnoc(turns[..n], turns[n]);
      assert turns == turns[..n] + [turns[n]];
    }
  }

  lemma {:induction false} CostSnoc(turns: seq<Turn>, t: Turn)
    ensures Cost(turns + [t]) == Cost(turns) + Estimate(t.content)
  {
    if turns == [] {
      assert turns + [t] == [t] && [t][1..] == [];
    } else {
      assert (turns + [t])[1..] == turns[1..] + [t];
      CostSnoc(turns[1..], t);
    }
  }

  // ---------- The request with its recalled turns ----------

  predicate LeadsWithSystem(messages: seq<Value>) {
    && messages != [] && messages[0].Obj? && "role" in messages[0].fields
    && messages[0].fields["role"] == Str("system")
  }

  predicate IsTurn(m: Value, t: Turn) {
    m.Obj? && m.fields == map["role" := Str(t.role), "content" := Str(t.content), "__recalled" := Bool(true)]
  }

  /** `chosen` stands, marked and in order, behind a leading system message or else in front. */
  predicate IsInserted(messages: seq<Value>, chosen: seq<Turn>, all: seq<Value>) {
    var first, n := if LeadsWithSystem(messages) then 1 else 0, |chosen|;
    && |all| == |messages| + n
    && all[..first] == messages[..first] && all[first + n..] == messages[first..]
    && forall i | 0 <= i < n :: IsTurn(all[first..][i], chosen[i])
  }

  /** The chosen turns are inserted, and all else in the request is as it was. */
  lemma TurnsAreInserted(fields: map<string, Value>, messages: seq<Value>, turns: seq<Turn>, cutoff: nat)
    requires "messages" in fields && fields["messages"] == Arr(messages) && cutoff < |turns|
    ensures var out := Inject(Obj(fields), turns, cutoff);
            && out.Obj? && out.fields.Keys == fields.Keys
            && (forall key | key in fields && key != "messages" :: out.fields[key] == fields[key])
            && out.fields["messages"].Arr?
            && IsInserted(messages, turns[cutoff..], out.fields["messages"].items)
  {
    AreInserted(messages, turns[cutoff..]);
  }

  lemma AreInserted(messages: seq<Value>, chosen: seq<Turn>)
    ensures IsInserted(messages, chosen, InjectMessages(messages, RecalledAll(chosen)))
  {
    var recalled := RecalledAll(chosen);
    var all, n := InjectMessages(messages, recalled), |chosen|;
    if LeadsWithSystem(messages) {
      assert all == [messages[0]] + recalled + messages[1..];
      assert all[1..] == recalled + messages[1..];
      assert all[..1] == messages[..1];
    } else {
      assert all == recalled + messages && all[0..] == all && all[n..] == messages && messages[0..] == messages;
    }
  }

  /** Without a turn that fits, or without a list of messages, the request stays as it is. */
  lemma NothingToInsert(body: Value, turns: seq<Turn>, cutoff: nat)
    requires cutoff <= |turns|
    requires cutoff == |turns| || !body.Obj? || "messages" !in body.fields || !body.fields["messages"].Arr?
    ensures Inject(body, turns, cutoff) == body
  {
  }

  // ---------- The user's message ----------

  /** A message of the user that was not recalled. */
  predicate IsOwn(m: Value) {
    && m.Obj? && "role" in m.fields && m.fields["role"] == Str("user")
    && !("__recalled" in m.fields && m.fields["__recalled"] == Bool(true))
  }

  /** The text of a message: its string, or the texts among its parts. */
  predicate IsTextOf(m: Value, trim: string -> string, text: string) {
    m.Obj?
    && if "content" in m.fields && m.fields["content"].Str? then text == m.fields["content"].s
       else if "content" in m.fields && m.fields["content"].Arr? then text == trim(PartLines(m.fields["content"].items))
       else text == ""
  }

  /** Every part with a text gives it a line of its own, whatever its type. */
  function Line(p: Value): string {
    if p.Obj? && "text" in p.fields && p.fields["text"].Str? && p.fields["text"].s != "" then p.fields["text"].s + "\n"
    else ""
  }

  lemma LinesSnoc(parts: seq<Value>, p: Value)
    ensures PartLines(parts + [p]) == PartLines(parts) + Line(p)
  {
    assert (parts + [p])[..|parts|] == parts;
  }

  lemma {:induction false} LinesInOrder(p: Value, parts: seq<Value>)
    ensures PartLines([]) == "" && PartLines([p] + parts) == Line(p) + PartLines(parts)
  {
    if parts == [] {
      LinesSnoc([], p);
      assert [p] + parts == [] + [p];
    } else {
      var n := |parts| - 1;
      LinesInOrder(p, parts[..n]);
      LinesBehind(p, parts[..n], parts[n]);
      assert parts == parts[..n] + [parts[n]];
    }
  }

  lemma LinesBehind(p: Value, front: seq<Value>, last: Value)
    requires PartLines([p] + front) == Line(p) + PartLines(front)
    ensures PartLines([p] + (front + [last])) == Line(p) + PartLines(front + [last])
  {
    LinesSnoc([p] + front, last);
    LinesSnoc(front, last);
    Regrouped([p], front, [last]);
    Regrouped(Line(p), PartLines(front), Line(last));
  }

  lemma Regrouped<T>(a: seq<T>, b: seq<T>, c: seq<T>)
    ensures (a + b) + c == a + (b + c)
  {
  }

  /** What is extracted is the text of the last own message. */
  lemma {:induction false} LastOwnIsExtracted(messages: seq<Value>, trim: string -> string, i: nat)
    requires i < |messages| && IsOwn(messages[i]) && forall k | i < k < |messages| :: !IsOwn(messages[k])
    ensures IsTextOf(messages[i], trim, LastUser(messages, trim))
  {
    if i < |messages| - 1 {
      assert !IsOwn(messages[|messages| - 1]);
      LastOwnIsExtracted(messages[..|messages| - 1], trim, i);
    }
  }

  lemma {:induction false} NothingIsExtracted(messages: seq<Value>, trim: string -> string)
    requires forall k | 0 <= k < |messages| :: !IsOwn(messages[k])
    ensures LastUser(messages, trim) == ""
  {
    if messages != [] {
      assert !IsOwn(messages[|messages| - 1]);
      NothingIsExtracted(messages[..|messages| - 1], trim);
    }
  }

  // ---------- Storing ----------

  /** A text of at most ten thousand characters is kept, a longer one is cut to that length with three dots. */
  predicate IsShortened(text: string, out: string) {
    if |text| <= 10000 then out == text
    else |out| == 10000 && out[..9997] == text[..9997] && out[9997..] == "..."
  }

  /** An exchange is stored when it has a session, a reply and a message of the user. */
  lemma StoresExactly(e: Exchange, fields: map<string, Value>, messages: seq<Value>, trim: string -> string)
    requires "messages" in fields && fields["messages"] == Arr(messages)
    ensures var user, tasks := LastUser(messages, trim), ToStore(e, Obj(fields), trim);
            if e.session == "" || e.reply == "" || user == "" then tasks == []
            else
              && |tasks| == 1 && tasks[0].session == e.session && tasks[0].token == e.token
              && tasks[0].model == e.model
              && IsShortened(user, tasks[0].user) && IsShortened(e.reply, tasks[0].assistant)
  {
  }

  /** The next turn number: behind all there are, and without a gap to the highest. */
  predicate IsNext(turns: seq<Turn>, n: nat) {
    && (forall i | 0 <= i < |turns| :: turns[i].index < n)
    && (n > 0 ==> exists i | 0 <= i < |turns| :: turns[i].index == n - 1)
  }

  lemma {:induction false} NextIndexIsNext(turns: seq<Turn>)
    ensures IsNext(turns, NextIndex(turns))
  {
    if turns != [] {
      var front, last := turns[..|turns| - 1], |turns| - 1;
      NextIndexIsNext(front);
      if NextIndex(front) > turns[last].index {
        var i :| 0 <= i < |front| && front[i].index == NextIndex(front) - 1;
        assert turns[i].index == NextIndex(turns) - 1;
      } else {
        assert turns[last].index == NextIndex(turns) - 1;
      }
    }
  }

  /** What a session holds after an exchange of its own was stored: the user's message and the answer under the next two
      numbers, or as much of it as the database took. */
  lemma ExchangeIsStored(rows: seq<Row>, t: Task) returns (n: nat)
    ensures IsNext(Load(rows, t.session, t.token), n)
    ensures Load(Save(rows, t, true, true), t.session, t.token)
         == Load(rows, t.session, t.token)
            + [Turn(n, "user", t.user, t.model), Turn(n + 1, "assistant", t.assistant, t.model)]
    ensures Load(Save(rows, t, true, false), t.session, t.token)
         == Load(rows, t.session, t.token) + [Turn(n, "user", t.user, t.model)]
    ensures Load(Save(rows, t, false, true), t.session, t.token) == Load(rows, t.session, t.token)
  {
    n := NextIndex(Load(rows, t.session, t.token));
    NextIndexIsNext(Load(rows, t.session, t.token));
    SaveLoads(rows, t, true, true, t.session, t.token, n);
    SaveLoads(rows, t, true, false, t.session, t.token, n);
    SaveLoads(rows, t, false, true, t.session, t.token, n);
    StoredTurns(n, t);
  }

  lemma StoredTurns(n: nat, t: Task)
    ensures Stored(n, t, true, true)
         == [Turn(n, "user", t.user, t.model), Turn(n + 1, "assistant", t.assistant, t.model)]
    ensures Stored(n, t, true, false) == [Turn(n, "user", t.user, t.model)] && Stored(n, t, false, true) == []
  {
  }
}
