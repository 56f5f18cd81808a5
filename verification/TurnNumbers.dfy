/** The numbers of stored turns, over every interleaving of the worker's statements with the clean-up. */
module TurnNumbers {
  import opened Json
  import opened SessionMemory
  import opened SessionStorage

  function Turns(s: Store, session: string, token: int): seq<Turn> {
    Load(s.rows, session, token)
  }

  /** Indices follow one another. */
  predicate Consecutive(turns: seq<Turn>) {
    forall i | 0 <= i < |turns| :: turns[i].index == turns[0].index + i
  }

  /** Indices run from 0 without gaps. */
  predicate Numbered(turns: seq<Turn>) {
    forall i | 0 <= i < |turns| :: turns[i].index == i
  }

  /** The worker is storing an exchange of the session. */
  predicate Holds(w: Worker, session: string, token: int) {
    !w.Idle? && w.task.session == session && w.task.token == token
  }

  /** The index of the row the worker inserts next. */
  function Next(w: Worker): nat
    requires !w.Idle?
  {
    if w.Indexed? then w.n else w.n + 1
  }

  predicate Covers(a: Action, session: string, token: int) {
    a.Expire? && (session, token) in a.expired
  }

  // ---------- One step ----------

  /** What a step adds to a session. */
  function Adds(w: Worker, a: Action, session: string, token: int): seq<Turn> {
    if !Holds(w, session, token) then []
    else if w.Indexed? && a.InsertUser? && a.ok then [UserTurn(w.n, w.task)]
    else if w.Halfway? && a.InsertAssistant? && a.ok then [AssistantTurn(w.n, w.task)]
    else []
  }

  lemma ActTurns(s: Store, a: Action, body: Value, trim: string -> string, session: string, token: int)
    ensures Turns(Act(s, a, body, trim), session, token)
         == if Covers(a, session, token) then [] else Turns(s, session, token) + Adds(s.worker, a, session, token)
  {
    match a {
      case InsertUser(ok) =>
        if s.worker.Indexed? && ok {
          var t := s.worker.task;
          LoadSnoc(s.rows, Row(t.session, t.token, UserTurn(s.worker.n, t)), session, token);
        }
      case InsertAssistant(ok) =>
        if s.worker.Halfway? && ok {
          var t := s.worker.task;
          LoadSnoc(s.rows, Row(t.session, t.token, AssistantTurn(s.worker.n, t)), session, token);
        }
      case Expire(expired) =>
        PurgeLoads(s.rows, expired, session, token);
      case _ =>
    }
  }

  lemma {:induction false} NextOfConsecutive(turns: seq<Turn>)
    requires Consecutive(turns)
    ensures NextIndex(turns) == if turns == [] then 0 else turns[|turns| - 1].index + 1
  {
    if turns != [] {
      var front := turns[..|turns| - 1];
      assert forall i | 0 <= i < |front| :: front[i].index == front[0].index + i;
      NextOfConsecutive(front);
    }
  }

  /** The worker's next row continues what the table holds of the session, if it holds anything. */
  predicate Linked(s: Store, session: string, token: int) {
    var turns := Turns(s, session, token);
    && Consecutive(turns)
    && (Holds(s.worker, session, token) && turns != [] ==> turns[|turns| - 1].index + 1 == Next(s.worker))
  }

  /** The session is numbered, and the worker's next row keeps it so. */
  predicate InStep(s: Store, session: string, token: int) {
    Numbered(Turns(s, session, token))
    && (Holds(s.worker, session, token) ==> Next(s.worker) == |Turns(s, session, token)|)
  }

  /** Where the worker is after a step: at the next row of the same exchange, or at one whose index it has just read. */
  lemma ActWorker(s: Store, a: Action, body: Value, trim: string -> string, session: string, token: int)
    ensures var w, w' := s.worker, Act(s, a, body, trim).worker;
            Holds(w', session, token) ==>
              if Holds(w, session, token) then Next(w') == Next(w) + |Adds(w, a, session, token)|
              else a.Take? && Next(w') == NextIndex(Turns(s, session, token))
  {
  }

  lemma AddsNext(w: Worker, a: Action, session: string, token: int)
    ensures var added := Adds(w, a, session, token);
            added == [] || (Holds(w, session, token) && !Covers(a, session, token) && |added| == 1
                            && added[0].index == Next(w))
    ensures !Holds(w, session, token) ==> Adds(w, a, session, token) == []
  {
  }

  lemma ConsecutiveSnoc(turns: seq<Turn>, t: Turn)
    requires Consecutive(turns) && (turns != [] ==> turns[|turns| - 1].index + 1 == t.index)
    ensures Consecutive(turns + [t])
  {
  }

  lemma StepLinked(s: Store, a: Action, body: Value, trim: string -> string, session: string, token: int)
    requires Linked(s, session, token)
    ensures Linked(Act(s, a, body, trim), session, token)
  {
    var turns, added := Turns(s, session, token), Adds(s.worker, a, session, token);
    ActTurns(s, a, body, trim, session, token);
    ActWorker(s, a, body, trim, session, token);
    AddsNext(s.worker, a, session, token);
    NextOfConsecutive(turns);
    if added == [] {
      assert turns + added == turns;
    } else {
      assert added == [added[0]];
      ConsecutiveSnoc(turns, added[0]);
    }
  }

  /** Only a clean-up of a session that the worker has already read an index above 0 for breaks the step. */
  lemma StepInStep(s: Store, a: Action, body: Value, trim: string -> string, session: string, token: int)
    requires InStep(s, session, token)
    requires Covers(a, session, token) && Holds(s.worker, session, token) ==> Next(s.worker) == 0
    ensures InStep(Act(s, a, body, trim), session, token)
  {
    var turns, added := Turns(s, session, token), Adds(s.worker, a, session, token);
    ActTurns(s, a, body, trim, session, token);
    ActWorker(s, a, body, trim, session, token);
    AddsNext(s.worker, a, session, token);
    NextOfConsecutive(turns);
    if added == [] {
      assert turns + added == turns;
    } else {
      assert added == [added[0]];
    }
  }

  // ---------- Runs ----------

  lemma {:induction false} RunSplit(s: Store, first: seq<Action>, then_: seq<Action>, trim: string -> string)
    ensures PlainRun(s, first + then_, trim) == PlainRun(PlainRun(s, first, trim), then_, trim)
    decreases |first|
  {
    if first == [] {
      assert first + then_ == then_;
    } else {
      assert (first + then_)[1..] == first[1..] + then_;
      RunSplit(Act(s, first[0], BodyOf(first[0]), trim), first[1..], then_, trim);
    }
  }

  lemma {:induction false} StaysLinked(s: Store, actions: seq<Action>, trim: string -> string, session: string,
                                       token: int)
    requires Linked(s, session, token)
    ensures Linked(PlainRun(s, actions, trim), session, token)
    decreases |actions|
  {
    if actions != [] {
      StepLinked(s, actions[0], BodyOf(actions[0]), trim, session, token);
      StaysLinked(Act(s, actions[0], BodyOf(actions[0]), trim), actions[1..], trim, session, token);
    }
  }

  predicate NoneCovers(actions: seq<Action>, session: string, token: int) {
    forall i | 0 <= i < |actions| :: !Covers(actions[i], session, token)
  }

  lemma {:induction false} StaysInStep(s: Store, actions: seq<Action>, trim: string -> string, session: string,
                                       token: int)
    requires InStep(s, session, token) && NoneCovers(actions, session, token)
    ensures InStep(PlainRun(s, actions, trim), session, token)
    decreases |actions|
  {
    if actions != [] {
      assert !Covers(actions[0], session, token);
      StepInStep(s, actions[0], BodyOf(actions[0]), trim, session, token);
      StaysInStep(Act(s, actions[0], BodyOf(actions[0]), trim), actions[1..], trim, session, token);
    }
  }

  lemma {:induction false} FirstStays(s: Store, actions: seq<Action>, trim: string -> string, session: string,
                                      token: int)
    requires Turns(s, session, token) != [] && NoneCovers(actions, session, token)
    ensures var turns := Turns(PlainRun(s, actions, trim), session, token);
            turns != [] && turns[0] == Turns(s, session, token)[0]
    decreases |actions|
  {
    if actions != [] {
      assert !Covers(actions[0], session, token);
      ActTurns(s, actions[0], BodyOf(actions[0]), trim, session, token);
      FirstStays(Act(s, actions[0], BodyOf(actions[0]), trim), actions[1..], trim, session, token);
    }
  }

  /** Whether the row that the worker inserts next gets into the table. */
  predicate NextInsertWorks(w: Worker, actions: seq<Action>)
    decreases |actions|
  {
    if actions == [] then false
    else if w.Indexed? && actions[0].InsertUser? then actions[0].ok
    else if w.Halfway? && actions[0].InsertAssistant? then actions[0].ok
    else NextInsertWorks(w, actions[1..])
  }

  /** A clean-up of the session between reading an index above 0 and the insert: if the insert works, the session starts
      with that index; if not, it starts anew. */
  lemma {:induction false} AfterCleanUp(s: Store, later: seq<Action>, trim: string -> string, session: string,
                                        token: int)
    requires Turns(s, session, token) == [] && Holds(s.worker, session, token) && Next(s.worker) > 0
    requires NoneCovers(later, session, token)
    ensures Numbered(Turns(PlainRun(s, later, trim), session, token)) <==> !NextInsertWorks(s.worker, later)
    decreases |later|
  {
    if later != [] {
      var a := later[0];
      var next := Act(s, a, BodyOf(a), trim);
      assert !Covers(a, session, token);
      ActTurns(s, a, BodyOf(a), trim, session, token);
      if Adds(s.worker, a, session, token) != [] {
        FirstStays(next, later[1..], trim, session, token);
      } else if next.worker.Idle? {
        StaysInStep(next, later[1..], trim, session, token);
      } else {
        AfterCleanUp(next, later[1..], trim, session, token);
      }
    }
  }

  /** The last clean-up of the session came between an index read above 0 and the insert that used it. */
  ghost predicate Overtaken(s: Store, actions: seq<Action>, trim: string -> string, session: string, token: int) {
    exists k :: OvertakenAt(s, actions, k, trim, session, token)
  }

  predicate OvertakenAt(s: Store, actions: seq<Action>, k: int, trim: string -> string, session: string, token: int) {
    && 0 <= k < |actions| && Covers(actions[k], session, token) && NoneCovers(actions[k + 1..], session, token)
    && var w := PlainRun(s, actions[..k + 1], trim).worker;
       Holds(w, session, token) && Next(w) > 0 && NextInsertWorks(w, actions[k + 1..])
  }

  lemma {:induction false} LastCover(actions: seq<Action>, session: string, token: int) returns (k: int)
    ensures -1 <= k < |actions| && NoneCovers(actions[k + 1..], session, token)
    ensures k >= 0 ==> Covers(actions[k], session, token)
  {
    k := |actions| - 1;
    while k >= 0 && !Covers(actions[k], session, token)
      invariant -1 <= k < |actions| && NoneCovers(actions[k + 1..], session, token)
    {
      assert actions[k..] == [actions[k]] + actions[k + 1..];
      k := k - 1;
    }
  }

  lemma NotBehind(actions: seq<Action>, j: int, k: int, session: string, token: int)
    requires 0 <= j < k < |actions| && NoneCovers(actions[j + 1..], session, token)
    ensures !Covers(actions[k], session, token)
  {
    assert actions[j + 1..][k - j - 1] == actions[k];
  }

  lemma OneLastCover(actions: seq<Action>, j: int, k: int, session: string, token: int)
    requires 0 <= j < |actions| && 0 <= k < |actions|
    requires Covers(actions[j], session, token) && NoneCovers(actions[j + 1..], session, token)
    requires Covers(actions[k], session, token) && NoneCovers(actions[k + 1..], session, token)
    ensures j == k
  {
    if j < k {
      NotBehind(actions, j, k, session, token);
    } else if k < j {
      NotBehind(actions, k, j, session, token);
    }
  }

  lemma CoverEmpties(s: Store, actions: seq<Action>, k: nat, trim: string -> string, session: string, token: int)
    requires k < |actions| && Covers(actions[k], session, token)
    ensures Turns(PlainRun(s, actions[..k + 1], trim), session, token) == []
  {
    var a := actions[k];
    assert actions[..k + 1] == actions[..k] + [a] && [a][1..] == [];
    RunSplit(s, actions[..k], [a], trim);
    var before := PlainRun(s, actions[..k], trim);
    assert PlainRun(before, [a], trim) == Act(before, a, BodyOf(a), trim);
    ActTurns(before, a, BodyOf(a), trim, session, token);
  }

  lemma NumberedExactly(s: Store, actions: seq<Action>, trim: string -> string, session: string, token: int)
    requires InStep(s, session, token)
    ensures Numbered(Turns(PlainRun(s, actions, trim), session, token))
       <==> !Overtaken(s, actions, trim, session, token)
  {
    var k := LastCover(actions, session, token);
    if k < 0 {
      assert actions[0..] == actions;
      StaysInStep(s, actions, trim, session, token);
      assert forall j | 0 <= j < |actions| :: !Covers(actions[j], session, token);
    } else {
      var c, later := PlainRun(s, actions[..k + 1], trim), actions[k + 1..];
      assert actions == actions[..k + 1] + later;
      RunSplit(s, actions[..k + 1], later, trim);
      CoverEmpties(s, actions, k, trim, session, token);
      forall j | OvertakenAt(s, actions, j, trim, session, token) ensures j == k {
        OneLastCover(actions, j, k, session, token);
      }
      if Holds(c.worker, session, token) && Next(c.worker) > 0 {
        AfterCleanUp(c, later, trim, session, token);
        assert OvertakenAt(s, actions, k, trim, session, token) <==> NextInsertWorks(c.worker, later);
      } else {
        StaysInStep(c, later, trim, session, token);
      }
    }
  }

  /** Over every interleaving of serving, reading an index, the two inserts, dropped exchanges, failures and clean-ups:
      the turns of a session are consecutive, so none is repeated or missing; and they are numbered 0, 1, 2, ... if and
      only if the last clean-up of the session did not come between an index read above 0 and its insert. */
  lemma TurnsStayNumbered(s: Store, actions: seq<Action>, trim: string -> string, session: string, token: int)
    requires InStep(s, session, token)
    ensures var turns := Turns(PlainRun(s, actions, trim), session, token);
            Consecutive(turns) && (Numbered(turns) <==> !Overtaken(s, actions, trim, session, token))
  {
    StaysLinked(s, actions, trim, session, token);
    NumberedExactly(s, actions, trim, session, token);
  }

  // ---------- The run that goes wrong ----------

  lemma Does(s: Store, a: Action, rest: seq<Action>, trim: string -> string)
    ensures PlainRun(s, [a] + rest, trim) == PlainRun(Act(s, a, BodyOf(a), trim), rest, trim)
  {
    assert ([a] + rest)[1..] == rest;
  }

  /** The end of such a run: the index 2 is read, the clean-up removes the session, and the turn is inserted. */
  lemma Overtakes(t: Task, u: Row, a: Row, trim: string -> string)
    requires u == Row(t.session, t.token, UserTurn(0, t)) && a == Row(t.session, t.token, AssistantTurn(0, t))
    ensures var tail := [Take(0, true)] + ([Expire({(t.session, t.token)})] + ([InsertUser(true)] + []));
            PlainRun(Store([u, a], Idle, [t]), tail, trim)
            == Store([Row(t.session, t.token, UserTurn(2, t))], Halfway(t, 2), [])
  {
    var key, row := {(t.session, t.token)}, Row(t.session, t.token, UserTurn(2, t));
    var full, reading := Store([u, a], Idle, [t]), Store([u, a], Indexed(t, 2), []);
    var overtaken, end := Store([], Indexed(t, 2), []), Store([row], Halfway(t, 2), []);
    TwoTurns(t);
    PurgeBoth(u, a);
    assert Without([t], 0) == [];
    assert Act(full, Take(0, true), Null, trim) == reading;
    assert Act(reading, Expire(key), Null, trim) == overtaken;
    assert [] + [row] == [row];
    assert Act(overtaken, InsertUser(true), Null, trim) == end;
    Does(full, Take(0, true), [Expire(key)] + ([InsertUser(true)] + []), trim);
    Does(reading, Expire(key), [InsertUser(true)] + [], trim);
    Does(overtaken, InsertUser(true), [], trim);
  }

  /** One exchange is stored, and the next is overtaken by the clean-up: it is stored as turn 2 of an empty session. */
  lemma CleanUpOvertakes(t: Task, trim: string -> string)
    ensures var start := Store([], Idle, [t, t]);
            var actions := [Take(0, true)] + ([InsertUser(true)] + ([InsertAssistant(true)] + ([Take(0, true)]
              + ([Expire({(t.session, t.token)})] + ([InsertUser(true)] + [])))));
            && InStep(start, t.session, t.token)
            && PlainRun(start, actions, trim).rows == [Row(t.session, t.token, UserTurn(2, t))]
  {
    var tail := [Take(0, true)] + ([Expire({(t.session, t.token)})] + ([InsertUser(true)] + []));
    assert [t, t] == [t] + [t];
    StoresOne(Store([], Idle, [t, t]), t, [t], tail, trim);
    Overtakes(t, Row(t.session, t.token, UserTurn(0, t)), Row(t.session, t.token, AssistantTurn(0, t)), trim);
  }

  lemma StoresOne(s: Store, t: Task, rest: seq<Task>, tail: seq<Action>, trim: string -> string)
    requires s == Store([], Idle, [t] + rest)
    ensures var u, a := Row(t.session, t.token, UserTurn(0, t)), Row(t.session, t.token, AssistantTurn(0, t));
            PlainRun(s, [Take(0, true)] + ([InsertUser(true)] + ([InsertAssistant(true)] + tail)), trim)
            == PlainRun(Store([u, a], Idle, rest), tail, trim)
  {
    var u, a := Row(t.session, t.token, UserTurn(0, t)), Row(t.session, t.token, AssistantTurn(0, t));
    var s1, s2, s3 := Store([], Indexed(t, 0), rest), Store([u], Halfway(t, 0), rest), Store([u, a], Idle, rest);
    assert Without([t] + rest, 0) == rest;
    assert Act(s, Take(0, true), Null, trim) == s1;
    assert [] + [u] == [u] && [u] + [a] == [u, a];
    assert Act(s1, InsertUser(true), Null, trim) == s2;
    assert Act(s2, InsertAssistant(true), Null, trim) == s3;
    Does(s, Take(0, true), [InsertUser(true)] + ([InsertAssistant(true)] + tail), trim);
    Does(s1, InsertUser(true), [InsertAssistant(true)] + tail, trim);
    Does(s2, InsertAssistant(true), tail, trim);
  }

  lemma TwoTurns(t: Task)
    ensures NextIndex(Load([Row(t.session, t.token, UserTurn(0, t)), Row(t.session, t.token, AssistantTurn(0, t))],
                           t.session, t.token)) == 2
  {
    var u, a := Row(t.session, t.token, UserTurn(0, t)), Row(t.session, t.token, AssistantTurn(0, t));
    LoadSnoc([], u, t.session, t.token);
    LoadSnoc([u], a, t.session, t.token);
    NextSnoc([], u.turn);
    NextSnoc([u.turn], a.turn);
    assert [] + [u] == [u] && [u] + [a] == [u, a] && [] + [u.turn] == [u.turn];
  }

  lemma PurgeSnoc(rows: seq<Row>, r: Row, expired: set<(string, int)>)
    ensures Purge(rows + [r], expired) == Purge(rows, expired) + if (r.session, r.token) in expired then [] else [r]
  {
    assert (rows + [r])[..|rows|] == rows;
  }

  lemma PurgeBoth(u: Row, a: Row)
    requires u.session == a.session && u.token == a.token
    ensures Purge([u, a], {(u.session, u.token)}) == []
  {
    var key := {(u.session, u.token)};
    assert [u, a] == [u] + [a] && [u] == [] + [u];
    PurgeSnoc([u], a, key);
    PurgeSnoc([], u, key);
  }

  // ---------- Turns alternate ----------

  /** User and assistant take turns, the user first. */
  predicate Alternating(turns: seq<Turn>) {
    forall i | 0 <= i < |turns| :: turns[i].role == if i % 2 == 0 then "user" else "assistant"
  }

  predicate MidExchange(w: Worker, session: string, token: int) {
    Holds(w, session, token) && w.Halfway?
  }

  /** The turns alternate, and the last one is left by half exactly in the middle of an exchange. */
  predicate PairedTurns(turns: seq<Turn>, mid: bool) {
    Alternating(turns) && (|turns| % 2 == 1 <==> mid)
  }

  predicate Paired(s: Store, session: string, token: int) {
    PairedTurns(Turns(s, session, token), MidExchange(s.worker, session, token))
  }

  /** An exchange of the session is stored by half, or loses its first half. */
  predicate Halves(w: Worker, a: Action, session: string, token: int) {
    && Holds(w, session, token) && w.Halfway?
    && (Covers(a, session, token) || a == InsertAssistant(false))
  }

  predicate NeverHalves(s: Store, actions: seq<Action>, trim: string -> string, session: string, token: int)
    decreases |actions|
  {
    actions != [] ==>
      && !Halves(s.worker, actions[0], session, token)
      && NeverHalves(Act(s, actions[0], BodyOf(actions[0]), trim), actions[1..], trim, session, token)
  }

  /** A step puts the worker in mid-exchange when it inserts the first row, and out of it when it inserts the second. */
  lemma ActHalf(s: Store, a: Action, body: Value, trim: string -> string, session: string, token: int)
    requires !Halves(s.worker, a, session, token)
    ensures var w, w', added := s.worker, Act(s, a, body, trim).worker, Adds(s.worker, a, session, token);
            && (MidExchange(w', session, token) <==> MidExchange(w, session, token) != (added != []))
            && (added != [] ==> |added| == 1 && !Covers(a, session, token)
                                && added[0].role == if MidExchange(w, session, token) then "assistant" else "user")
            && (Covers(a, session, token) ==> !MidExchange(w, session, token) && !MidExchange(w', session, token))
  {
  }

  lemma PairedSnoc(turns: seq<Turn>, mid: bool, t: Turn)
    requires PairedTurns(turns, mid) && t.role == if mid then "assistant" else "user"
    ensures PairedTurns(turns + [t], !mid)
  {
  }

  lemma StepPaired(s: Store, a: Action, body: Value, trim: string -> string, session: string, token: int)
    requires Paired(s, session, token) && !Halves(s.worker, a, session, token)
    ensures Paired(Act(s, a, body, trim), session, token)
  {
    var turns, added := Turns(s, session, token), Adds(s.worker, a, session, token);
    var next := Act(s, a, body, trim);
    var after, mid' := Turns(next, session, token), MidExchange(next.worker, session, token);
    ActTurns(s, a, body, trim, session, token);
    ActHalf(s, a, body, trim, session, token);
    assert PairedTurns(after, mid') by {
      if Covers(a, session, token) {
        assert after == [];
      } else if added == [] {
        assert after == turns + [] == turns;
      } else {
        assert after == turns + [added[0]];
        PairedSnoc(turns, MidExchange(s.worker, session, token), added[0]);
      }
    }
  }

  /** Over every such run that leaves no exchange by half, the turns of a session alternate, overtaken or not. */
  lemma {:induction false} TurnsAlternate(s: Store, actions: seq<Action>, trim: string -> string, session: string,
                                          token: int)
    requires Paired(s, session, token) && NeverHalves(s, actions, trim, session, token)
    ensures Paired(PlainRun(s, actions, trim), session, token)
    decreases |actions|
  {
    if actions != [] {
      StepPaired(s, actions[0], BodyOf(actions[0]), trim, session, token);
      TurnsAlternate(Act(s, actions[0], BodyOf(actions[0]), trim), actions[1..], trim, session, token);
    }
  }

  // ---------- Without interruption ----------

  /** With nothing in between, the three statements of the worker store an exchange as one call does. */
  lemma UninterruptedIsSave(s: Store, i: nat, userOk: bool, assistantOk: bool, trim: string -> string)
    requires s.worker.Idle? && i < |s.pending|
    ensures var actions := [Take(i, true)] + ([InsertUser(userOk)] + ([InsertAssistant(assistantOk)] + []));
            PlainRun(s, actions, trim)
            == Store(Save(s.rows, s.pending[i], userOk, assistantOk), Idle, Without(s.pending, i))
  {
    var t, rest := s.pending[i], Without(s.pending, i);
    var n := NextIndex(Load(s.rows, t.session, t.token));
    var s1 := Store(s.rows, Indexed(t, n), rest);
    Does(s, Take(i, true), [InsertUser(userOk)] + ([InsertAssistant(assistantOk)] + []), trim);
    assert Act(s, Take(i, true), Null, trim) == s1;
    Does(s1, InsertUser(userOk), [InsertAssistant(assistantOk)] + [], trim);
    Inserted(s1, userOk, assistantOk, trim);
  }

  lemma Inserted(s: Store, userOk: bool, assistantOk: bool, trim: string -> string)
    requires s.worker.Indexed? && s.worker.n == NextIndex(Load(s.rows, s.worker.task.session, s.worker.task.token))
    ensures PlainRun(Act(s, InsertUser(userOk), Null, trim), [InsertAssistant(assistantOk)] + [], trim)
         == Store(Save(s.rows, s.worker.task, userOk, assistantOk), Idle, s.pending)
  {
    var next := Act(s, InsertUser(userOk), Null, trim);
    Does(next, InsertAssistant(assistantOk), [], trim);
    if !userOk {
      assert s.rows + [] + [] == s.rows;
    } else if !assistantOk {
      assert next.rows + [] == next.rows;
    }
  }
}
