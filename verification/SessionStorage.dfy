/** Storing exchanges: the table of turns, the worker that fills it, and the clean-up beside it. */
module SessionStorage {
  import opened Json
  import opened SessionMemory

  // ---------- The table of turns ----------

  datatype Row = Row(session: string, token: int, turn: Turn)

  /** The turns of a session, in the order they were stored. */
  function Load(rows: seq<Row>, session: string, token: int): seq<Turn> {
    if rows == [] then []
    else
      var r := rows[|rows| - 1];
      Load(rows[..|rows| - 1], session, token) + if r.session == session && r.token == token then [r.turn] else []
  }

  function NextIndex(turns: seq<Turn>): nat {
    if turns == [] then 0
    else
      var before, own := NextIndex(turns[..|turns| - 1]), turns[|turns| - 1].index + 1;
      if before < own then own else before
  }

  datatype Task = Task(session: string, token: int, model: string, user: string, assistant: string)

  function UserTurn(n: nat, t: Task): Turn {
    Turn(n, "user", t.user, t.model)
  }

  function AssistantTurn(n: nat, t: Task): Turn {
    Turn(n + 1, "assistant", t.assistant, t.model)
  }

  /** Storing one exchange when each of the two inserts may fail; after a failed first one the second is not tried. */
  function Save(rows: seq<Row>, t: Task, userOk: bool, assistantOk: bool): seq<Row> {
    var n := NextIndex(Load(rows, t.session, t.token));
    rows
    + (if userOk then [Row(t.session, t.token, UserTurn(n, t))] else [])
    + (if userOk && assistantOk then [Row(t.session, t.token, AssistantTurn(n, t))] else [])
  }

  /** Clean-up removes whole sessions. */
  function Purge(rows: seq<Row>, expired: set<(string, int)>): seq<Row> {
    if rows == [] then []
    else
      var r := rows[|rows| - 1];
      Purge(rows[..|rows| - 1], expired) + if (r.session, r.token) in expired then [] else [r]
  }

  class SessionStore {
    var rows: seq<Row>

    constructor ()
      ensures rows == []
    {
      rows := [];
    }

    method NextTurnIndex(session: string, token: int) returns (n: nat)
      ensures n == NextIndex(Load(rows, session, token))
    {
      n := 0;
      for i := 0 to |rows|
        invariant n == NextIndex(Load(rows[..i], session, token))
      {
        IndexAfterRow(rows, i, session, token);
        if rows[i].session == session && rows[i].token == token {
          if n < rows[i].turn.index + 1 {
            n := rows[i].turn.index + 1;
          }
        }
      }
      assert rows[..|rows|] == rows;
    }

    /** `userOk` and `assistantOk` say whether the database takes the two inserts. */
    method SaveSessionTurn(task: Task, userOk: bool, assistantOk: bool) returns (saved: bool)
      modifies this
      ensures rows == Save(old(rows), task, userOk, assistantOk) && saved == (userOk && assistantOk)
    {
      var nextIdx := NextTurnIndex(task.session, task.token);
      if !userOk {
        return false;
      }
      rows := rows + [Row(task.session, task.token, Turn(nextIdx, "user", task.user, task.model))];
      if !assistantOk {
        return false;
      }
      rows := rows + [Row(task.session, task.token, Turn(nextIdx + 1, "assistant", task.assistant, task.model))];
      return true;
    }
  }

  lemma LoadSnoc(rows: seq<Row>, r: Row, session: string, token: int)
    ensures Load(rows + [r], session, token)
         == Load(rows, session, token) + if r.session == session && r.token == token then [r.turn] else []
  {
    assert (rows + [r])[..|rows|] == rows;
  }

  lemma IndexAfterRow(rows: seq<Row>, i: nat, session: string, token: int)
    requires i < |rows|
    ensures var n := NextIndex(Load(rows[..i], session, token));
            var own := rows[i].session == session && rows[i].token == token;
            NextIndex(Load(rows[..i + 1], session, token))
            == if own && n < rows[i].turn.index + 1 then rows[i].turn.index + 1 else n
  {
    var turns := Load(rows[..i], session, token);
    assert rows[..i + 1] == rows[..i] + [rows[i]];
    LoadSnoc(rows[..i], rows[i], session, token);
    NextSnoc(turns, rows[i].turn);
    assert turns + [] == turns;
  }

  lemma NextSnoc(turns: seq<Turn>, t: Turn)
    ensures NextIndex(turns + [t]) == if NextIndex(turns) < t.index + 1 then t.index + 1 else NextIndex(turns)
  {
    assert (turns + [t])[..|turns|] == turns;
  }

  /** What one exchange adds to its session. */
  function Stored(n: nat, t: Task, userOk: bool, assistantOk: bool): seq<Turn> {
    (if userOk then [UserTurn(n, t)] else [])
    + (if userOk && assistantOk then [AssistantTurn(n, t)] else [])
  }

  lemma LoadOne(rows: seq<Row>, r: Row, present: bool, session: string, token: int)
    ensures Load(rows + if present then [r] else [], session, token)
         == Load(rows, session, token) + if present && r.session == session && r.token == token then [r.turn] else []
  {
    if present {
      LoadSnoc(rows, r, session, token);
    } else {
      assert rows + [] == rows;
    }
  }

  /** An exchange goes to its own session and to no other. */
  lemma SaveLoads(rows: seq<Row>, t: Task, userOk: bool, assistantOk: bool, session: string, token: int, n: nat)
    requires n == NextIndex(Load(rows, t.session, t.token))
    ensures Load(Save(rows, t, userOk, assistantOk), session, token)
         == Load(rows, session, token)
            + if t.session == session && t.token == token then Stored(n, t, userOk, assistantOk) else []
  {
    TwoRows(rows, Row(t.session, t.token, UserTurn(n, t)), userOk, Row(t.session, t.token, AssistantTurn(n, t)),
            userOk && assistantOk, session, token);
  }

  lemma TwoRows(rows: seq<Row>, u: Row, userOk: bool, a: Row, assistantOk: bool, session: string, token: int)
    requires u.session == a.session && u.token == a.token
    ensures Load(rows + (if userOk then [u] else []) + (if assistantOk then [a] else []), session, token)
         == Load(rows, session, token) + if u.session == session && u.token == token then
              (if userOk then [u.turn] else []) + (if assistantOk then [a.turn] else []) else []
  {
    LoadOne(rows, u, userOk, session, token);
    LoadOne(rows + if userOk then [u] else [], a, assistantOk, session, token);
  }

  lemma {:induction false} PurgeLoads(rows: seq<Row>, expired: set<(string, int)>, session: string, token: int)
    ensures Load(Purge(rows, expired), session, token)
         == if (session, token) in expired then [] else Load(rows, session, token)
  {
    if rows != [] {
      var r, front := rows[|rows| - 1], rows[..|rows| - 1];
      PurgeLoads(front, expired, session, token);
      LoadOne(Purge(front, expired), r, (r.session, r.token) !in expired, session, token);
    }
  }

  // ---------- Serving with and without recall ----------

  const MAX_MESSAGE: nat := 10000

  function Truncate(s: string, maxLen: nat): string {
    if |s| <= maxLen then s else if maxLen <= 3 then s[..maxLen] else s[..maxLen - 3] + "..."
  }

  /** One served request: its body, the session recalled into it if any, and the reply. */
  datatype Exchange = Exchange(
    body: Value, session: string, token: int, model: string, recall: Option<string>, budget: nat, reply: string)

  /** What is to be stored of an exchange whose body reached the provider as `body`. */
  function ToStore(e: Exchange, body: Value, trim: string -> string): seq<Task> {
    var user := LastUserOf(body, trim);
    if e.session == "" || e.reply == "" || user == "" then []
    else [Task(e.session, e.token, e.model, Truncate(user, MAX_MESSAGE), Truncate(e.reply, MAX_MESSAGE))]
  }

  /** The worker's place in storing an exchange: the index is read, then two rows are inserted, each a statement of its
      own. */
  datatype Worker = Idle | Indexed(task: Task, n: nat) | Halfway(task: Task, n: nat)

  /** The table, the worker, and the tasks on their way to it. Each task is sent by a goroutine of its own through a
      bounded channel, so any of them may be the next to be taken, or be dropped. */
  datatype Store = Store(rows: seq<Row>, worker: Worker, pending: seq<Task>)

  /** What happens next, in any interleaving; the flags say whether the database answers. */
  datatype Action =
    | Serve(e: Exchange)
    | Take(i: nat, ok: bool)
    | InsertUser(ok: bool)
    | InsertAssistant(ok: bool)
    | Drop(i: nat)
    | Expire(expired: set<(string, int)>)

  function Without(tasks: seq<Task>, i: nat): seq<Task>
    requires i < |tasks|
  {
    tasks[..i] + tasks[i + 1..]
  }

  /** One action, when a served body reached the provider as `body`; nothing when it is not the worker's turn. */
  function Act(s: Store, a: Action, body: Value, trim: string -> string): Store {
    match a
    case Serve(e) => s.(pending := s.pending + ToStore(e, body, trim))
    case Take(i, ok) =>
      if i < |s.pending| && s.worker.Idle? then
        var t := s.pending[i];
        s.(worker := if ok then Indexed(t, NextIndex(Load(s.rows, t.session, t.token))) else Idle,
           pending := Without(s.pending, i))
      else s
    case InsertUser(ok) =>
      if !s.worker.Indexed? then s
      else if !ok then s.(worker := Idle)
      else
        var t, n := s.worker.task, s.worker.n;
        s.(rows := s.rows + [Row(t.session, t.token, UserTurn(n, t))], worker := Halfway(t, n))
    case InsertAssistant(ok) =>
      if !s.worker.Halfway? then s
      else if !ok then s.(worker := Idle)
      else
        var t, n := s.worker.task, s.worker.n;
        s.(rows := s.rows + [Row(t.session, t.token, AssistantTurn(n, t))], worker := Idle)
    case Drop(i) => if i < |s.pending| then s.(pending := Without(s.pending, i)) else s
    case Expire(expired) => s.(rows := Purge(s.rows, expired))
  }

  /** `s'` is where the actions may lead with recall: each body may first get turns of any table there has been. */
  ghost predicate Leads(s: Store, tables: seq<seq<Row>>, actions: seq<Action>, trim: string -> string, s': Store)
    decreases |actions|
  {
    if actions == [] then s' == s
    else
      var a, known := actions[0], tables + [s.rows];
      exists body | Reaches(known, a, body) :: Leads(Act(s, a, body, trim), known, actions[1..], trim, s')
  }

  ghost predicate Reaches(tables: seq<seq<Row>>, a: Action, body: Value) {
    a.Serve? ==>
      match a.e.recall
      case None => body == a.e.body
      case Some(session) => exists rows | rows in tables :: RecalledFrom(rows, a.e, session, body)
  }

  ghost predicate RecalledFrom(rows: seq<Row>, e: Exchange, session: string, body: Value) {
    var turns := Load(rows, session, e.token);
    exists cutoff: nat :: LongestFit(turns, e.budget, cutoff) && body == Inject(e.body, turns, cutoff)
  }

  function BodyOf(a: Action): Value {
    if a.Serve? then a.e.body else Null
  }

  function PlainRun(s: Store, actions: seq<Action>, trim: string -> string): Store
    decreases |actions|
  {
    if actions == [] then s else PlainRun(Act(s, actions[0], BodyOf(actions[0]), trim), actions[1..], trim)
  }

  /** No re-ingestion: whatever is recalled along the way, from however old a table, and in whatever order tasks are
      stored or dropped, table and tasks end up as if nothing had ever been recalled. */
  lemma {:induction false} RecallLeavesNoTrace(s: Store, tables: seq<seq<Row>>, actions: seq<Action>,
                                               trim: string -> string, s': Store)
    ensures Leads(s, tables, actions, trim, s') <==> s' == PlainRun(s, actions, trim)
    decreases |actions|
  {
    if actions != [] {
      var a, known := actions[0], tables + [s.rows];
      var plain := Act(s, a, BodyOf(a), trim);
      RecallLeavesNoTrace(plain, known, actions[1..], trim, s');
      forall body | Reaches(known, a, body) ensures Act(s, a, body, trim) == plain {
        ReachedActs(s, known, a, body, trim);
      }
      assert s.rows in known;
      SomeBodyReaches(known, s.rows, a);
    }
  }

  lemma ReachedActs(s: Store, tables: seq<seq<Row>>, a: Action, body: Value, trim: string -> string)
    requires Reaches(tables, a, body)
    ensures Act(s, a, body, trim) == Act(s, a, BodyOf(a), trim)
  {
    if a.Serve? && a.e.recall.Some? {
      var rows :| rows in tables && RecalledFrom(rows, a.e, a.e.recall.value, body);
      var turns := Load(rows, a.e.recall.value, a.e.token);
      var cutoff: nat :| LongestFit(turns, a.e.budget, cutoff) && body == Inject(a.e.body, turns, cutoff);
      InjectionIsInvisible(a.e.body, turns, cutoff, trim);
    }
  }

  lemma SomeBodyReaches(tables: seq<seq<Row>>, rows: seq<Row>, a: Action)
    requires rows in tables
    ensures exists body :: Reaches(tables, a, body)
  {
    if a.Serve? && a.e.recall.Some? {
      var turns := Load(rows, a.e.recall.value, a.e.token);
      var cutoff := LongestFitExists(turns, a.e.budget);
      assert RecalledFrom(rows, a.e, a.e.recall.value, Inject(a.e.body, turns, cutoff));
      assert Reaches(tables, a, Inject(a.e.body, turns, cutoff));
    } else {
      assert Reaches(tables, a, BodyOf(a));
    }
  }
}
