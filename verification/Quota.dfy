/** Token quotas: concurrent deductions in memory, deltas sent to the database through a bounded channel, and a
    periodic flush of absolute snapshots. Every atomic action is a step of its own. */
module Quota {
  import opened Json

  type Id = int

  /** A published quota state; `version` stands for the identity of the pointer. */
  datatype Cell = Cell(total: int, used: int, version: nat)

  datatype Delta = Delta(id: Id, cost: int)

  /** One deducting goroutine. */
  datatype Thread =
    | Idle
    | Loaded(d: Delta, seen: Cell)
    | Failed(d: Delta, seen: Cell)
    | Won(d: Delta)

  datatype Flusher = Resting | Reading(snap: map<Id, int>)

  /** History of a token, for stating properties: its use at start-up, the last committed snapshot (at first the value
      loaded), the deltas outstanding and the memory value when it was committed, and the deltas lost since. */
  datatype Ledger = Ledger(initial: int, base: int, pending: int, memAt: int, lost: int)

  datatype System = System(
    mem: map<Id, Cell>, db: map<Id, int>, channel: seq<Delta>, hand: Option<Delta>,
    threads: seq<Thread>, flusher: Flusher, ledger: map<Id, Ledger>)

  const CAPACITY: nat := 2048

  datatype Step =
    | Begin(t: nat, d: Delta)
    | Refuse(t: nat)
    | Swap(t: nat)
    | SwapFails(t: nat)
    | Reload(t: nat)
    | Enqueue(t: nat)
    | Drop(t: nat)
    | Dequeue
    | Write(ok: bool)
    | StartFlush
    | ReadOne(id: Id)
    | Commit(rows: set<Id>)
    | Abort

  predicate Exceeds(c: Cell, cost: int) {
    c.total > 0 && c.used + cost > c.total
  }

  predicate Enabled(s: System, a: Step) {
    match a
    case Begin(t, d) => t < |s.threads| && s.threads[t].Idle? && d.cost > 0 && d.id in s.mem
    case Refuse(t) => t < |s.threads| && s.threads[t].Loaded? && Exceeds(s.threads[t].seen, s.threads[t].d.cost)
    case Swap(t) =>
      && t < |s.threads| && s.threads[t].Loaded? && !Exceeds(s.threads[t].seen, s.threads[t].d.cost)
      && s.threads[t].d.id in s.mem && s.mem[s.threads[t].d.id].version == s.threads[t].seen.version
    case SwapFails(t) =>
      && t < |s.threads| && s.threads[t].Loaded? && !Exceeds(s.threads[t].seen, s.threads[t].d.cost)
      && s.threads[t].d.id in s.mem && s.mem[s.threads[t].d.id].version != s.threads[t].seen.version
    case Reload(t) => t < |s.threads| && s.threads[t].Failed? && s.threads[t].d.id in s.mem
    case Enqueue(t) => t < |s.threads| && s.threads[t].Won? && |s.channel| < CAPACITY
    case Drop(t) => t < |s.threads| && s.threads[t].Won? && |s.channel| == CAPACITY && s.threads[t].d.id in s.ledger
    case Dequeue => s.hand.None? && s.channel != []
    case Write(ok) => s.hand.Some? && s.hand.value.id in s.db && s.hand.value.id in s.ledger
    case StartFlush => s.flusher.Resting?
    case ReadOne(id) => s.flusher.Reading? && id in s.mem && id !in s.flusher.snap
    case Commit(rows) =>
      && s.flusher.Reading? && s.flusher.snap.Keys == s.mem.Keys && rows <= s.mem.Keys
      && s.mem.Keys <= s.ledger.Keys
    case Abort => s.flusher.Reading?
  }

  // ---------- Outstanding deltas ----------

  function Amount(d: Delta, id: Id): int {
    if d.id == id then d.cost else 0
  }

  function Queued(channel: seq<Delta>, id: Id): int {
    if channel == [] then 0 else Amount(channel[0], id) + Queued(channel[1..], id)
  }

  function Held(hand: Option<Delta>, id: Id): int {
    if hand.Some? then Amount(hand.value, id) else 0
  }

  function Carried(threads: seq<Thread>, id: Id): int {
    if threads == [] then 0
    else (if threads[0].Won? then Amount(threads[0].d, id) else 0) + Carried(threads[1..], id)
  }

  /** Accepted costs on their way to the database: not yet sent, queued, or taken from the queue. */
  function Outstanding(s: System, id: Id): int {
    Queued(s.channel, id) + Held(s.hand, id) + Carried(s.threads, id)
  }

  // ---------- Steps ----------

  function Publish(c: Cell, cost: int): Cell {
    Cell(c.total, c.used + cost, c.version + 1)
  }

  function Lose(s: System, d: Delta): map<Id, Ledger>
    requires d.id in s.ledger
  {
    s.ledger[d.id := s.ledger[d.id].(lost := s.ledger[d.id].lost + d.cost)]
  }

  function Apply(s: System, a: Step): System
    requires Enabled(s, a)
  {
    match a
    case Begin(t, d) => s.(threads := s.threads[t := Loaded(d, s.mem[d.id])])
    case Refuse(t) => s.(threads := s.threads[t := Idle])
    case Swap(t) =>
      var d := s.threads[t].d;
      s.(threads := s.threads[t := Won(d)], mem := s.mem[d.id := Publish(s.threads[t].seen, d.cost)])
    case SwapFails(t) => s.(threads := s.threads[t := Failed(s.threads[t].d, s.threads[t].seen)])
    case Reload(t) => s.(threads := s.threads[t := Loaded(s.threads[t].d, s.mem[s.threads[t].d.id])])
    case Enqueue(t) => s.(threads := s.threads[t := Idle], channel := s.channel + [s.threads[t].d])
    case Drop(t) => s.(threads := s.threads[t := Idle], ledger := Lose(s, s.threads[t].d))
    case Dequeue => s.(hand := Some(s.channel[0]), channel := s.channel[1..])
    case Write(ok) =>
      var d := s.hand.value;
      if ok then s.(hand := None, db := s.db[d.id := s.db[d.id] + d.cost]) else s.(hand := None, ledger := Lose(s, d))
    case StartFlush => s.(flusher := Reading(map[]))
    case ReadOne(id) => s.(flusher := Reading(s.flusher.snap[id := s.mem[id].used]))
    case Commit(rows) =>
      s.(flusher := Resting,
         db := map id | id in s.db.Keys :: if id in rows then s.flusher.snap[id] else s.db[id],
         ledger := map id | id in s.ledger.Keys ::
           if id in rows
           then s.ledger[id].(base := s.flusher.snap[id], pending := Outstanding(s, id), memAt := s.mem[id].used,
                              lost := 0)
           else s.ledger[id])
    case Abort => s.(flusher := Resting)
  }

  ghost predicate Runs(s: System, steps: seq<Step>)
    decreases |steps|
  {
    steps == [] || (Enabled(s, steps[0]) && Runs(Apply(s, steps[0]), steps[1..]))
  }

  function Exec(s: System, steps: seq<Step>): System
    requires Runs(s, steps)
    decreases |steps|
  {
    if steps == [] then s else Exec(Apply(s, steps[0]), steps[1..])
  }

  /** After loading the cache from the database; any number of goroutines may come. */
  predicate Init(s: System) {
    && s.db.Keys == s.mem.Keys == s.ledger.Keys
    && (forall id | id in s.mem :: s.mem[id].used == s.db[id]
                    && s.ledger[id] == Ledger(s.db[id], s.db[id], 0, s.db[id], 0))
    && s.channel == [] && s.hand.None? && s.flusher.Resting?
    && forall t | t in s.threads :: t.Idle?
  }

  // ---------- The invariant ----------

  predicate ThreadOk(mem: map<Id, Cell>, t: Thread) {
    !t.Idle? ==>
      && t.d.cost > 0 && t.d.id in mem
      && (t.Loaded? ==> && t.seen.version <= mem[t.d.id].version
                        && t.seen.total == mem[t.d.id].total && t.seen.used <= mem[t.d.id].used
                        && (t.seen.version == mem[t.d.id].version ==> t.seen == mem[t.d.id]))
      && (t.Failed? ==> t.seen.version < mem[t.d.id].version)
  }

  predicate DeltaOk(mem: map<Id, Cell>, d: Delta) {
    d.cost > 0 && d.id in mem
  }

  /** Conservation: what the database holds, what is under way and what was lost make up the last snapshot, the deltas
      that were outstanding when it was committed, and what memory accepted since. */
  predicate TokenOk(s: System, id: Id)
    requires id in s.mem && id in s.db && id in s.ledger
  {
    var m, l := s.mem[id], s.ledger[id];
    && s.db[id] + Outstanding(s, id) + l.lost == l.base + l.pending + (m.used - l.memAt)
    && l.base <= s.db[id] && l.base <= l.memAt <= m.used && l.lost >= 0 && l.pending >= 0
    && (m.total > 0 && l.initial <= m.total ==> m.used <= m.total)
  }

  predicate Inv(s: System) {
    && s.db.Keys == s.mem.Keys == s.ledger.Keys
    && (forall t | t in s.threads :: ThreadOk(s.mem, t))
    && (forall d | d in s.channel :: DeltaOk(s.mem, d))
    && (s.hand.Some? ==> DeltaOk(s.mem, s.hand.value))
    && (s.flusher.Reading? ==> forall id | id in s.flusher.snap :: id in s.mem && s.flusher.snap[id] <= s.mem[id].used)
    && (forall id | id in s.mem :: TokenOk(s, id))
  }

  lemma {:induction false} CarriedUpdate(threads: seq<Thread>, t: nat, new_: Thread, id: Id)
    requires t < |threads|
    ensures Carried(threads[t := new_], id)
         == Carried(threads, id) - Carried([threads[t]], id) + Carried([new_], id)
  {
    assert [threads[t]][1..] == [] && [new_][1..] == [];
    if t == 0 {
      assert threads[t := new_][1..] == threads[1..];
    } else {
      assert threads[t := new_][1..] == threads[1..][t - 1 := new_];
      CarriedUpdate(threads[1..], t - 1, new_, id);
    }
  }

  lemma {:induction false} QueuedAppend(channel: seq<Delta>, d: Delta, id: Id)
    ensures Queued(channel + [d], id) == Queued(channel, id) + Amount(d, id)
  {
    if channel == [] {
      assert ([] + [d])[1..] == [];
    } else {
      assert (channel + [d])[1..] == channel[1..] + [d];
      QueuedAppend(channel[1..], d, id);
    }
  }

  lemma {:induction false} CarriedNonNegative(mem: map<Id, Cell>, threads: seq<Thread>, id: Id)
    requires forall t | t in threads :: ThreadOk(mem, t)
    ensures Carried(threads, id) >= 0
  {
    if threads != [] {
      assert threads[0] in threads;
      CarriedNonNegative(mem, threads[1..], id);
    }
  }

  lemma {:induction false} QueuedNonNegative(mem: map<Id, Cell>, channel: seq<Delta>, id: Id)
    requires forall d | d in channel :: DeltaOk(mem, d)
    ensures Queued(channel, id) >= 0
  {
    if channel != [] {
      assert channel[0] in channel;
      QueuedNonNegative(mem, channel[1..], id);
    }
  }

  lemma OutstandingNonNegative(s: System, id: Id)
    requires Inv(s)
    ensures Outstanding(s, id) >= 0
  {
    CarriedNonNegative(s.mem, s.threads, id);
    QueuedNonNegative(s.mem, s.channel, id);
  }

  lemma {:induction false} NothingCarried(threads: seq<Thread>, id: Id)
    requires forall t | t in threads :: !t.Won?
    ensures Carried(threads, id) == 0
  {
    if threads != [] {
      assert threads[0] in threads;
      NothingCarried(threads[1..], id);
    }
  }

  lemma InitInv(s: System)
    requires Init(s)
    ensures Inv(s)
  {
    forall id | id in s.mem ensures TokenOk(s, id) {
      NothingCarried(s.threads, id);
    }
  }

  lemma ThreadSteps(s: System, a: Step)
    requires Inv(s) && Enabled(s, a) && (a.Begin? || a.Refuse? || a.SwapFails? || a.Reload?)
    ensures Inv(Apply(s, a))
  {
    var s' := Apply(s, a);
    forall id | id in s.mem ensures Outstanding(s', id) == Outstanding(s, id) {
      CarriedUpdate(s.threads, a.t, s'.threads[a.t], id);
    }
    assert s.threads[a.t] in s.threads;
    assert forall t | t in s'.threads :: t == s'.threads[a.t] || t in s.threads;
    assert forall id | id in s.mem :: TokenOk(s, id);
  }

  lemma SwapStep(s: System, a: Step)
    requires Inv(s) && Enabled(s, a) && a.Swap?
    ensures Inv(Apply(s, a))
  {
    var s', th := Apply(s, a), s.threads[a.t];
    assert th in s.threads && th.seen == s.mem[th.d.id];
    forall t | t in s'.threads ensures ThreadOk(s'.mem, t) {
      assert t == s'.threads[a.t] || t in s.threads;
    }
    forall id | id in s'.mem ensures TokenOk(s', id) {
      assert TokenOk(s, id);
      CarriedUpdate(s.threads, a.t, Won(th.d), id);
    }
  }

  lemma SendKeeps(s: System, a: Step, id: Id)
    requires Inv(s) && Enabled(s, a) && (a.Enqueue? || a.Drop?) && id in s.mem
    ensures TokenOk(Apply(s, a), id)
  {
    assert s.threads[a.t] in s.threads && TokenOk(s, id);
    CarriedUpdate(s.threads, a.t, Idle, id);
    QueuedAppend(s.channel, s.threads[a.t].d, id);
  }

  lemma SendSteps(s: System, a: Step)
    requires Inv(s) && Enabled(s, a) && (a.Enqueue? || a.Drop?)
    ensures Inv(Apply(s, a))
  {
    var s' := Apply(s, a);
    assert s.threads[a.t] in s.threads;
    assert forall t | t in s'.threads :: t == Idle || t in s.threads;
    forall id | id in s'.mem ensures TokenOk(s', id) {
      SendKeeps(s, a, id);
    }
  }

  lemma SyncSteps(s: System, a: Step)
    requires Inv(s) && Enabled(s, a) && (a.Dequeue? || a.Write?)
    ensures Inv(Apply(s, a))
  {
    var s' := Apply(s, a);
    assert a.Dequeue? ==> s.channel[0] in s.channel;
    forall id | id in s'.mem ensures TokenOk(s', id) {
      assert TokenOk(s, id);
    }
  }

  lemma FlushSteps(s: System, a: Step)
    requires Inv(s) && Enabled(s, a) && (a.StartFlush? || a.ReadOne? || a.Commit? || a.Abort?)
    ensures Inv(Apply(s, a))
  {
    var s' := Apply(s, a);
    forall id | id in s'.mem ensures TokenOk(s', id) {
      assert TokenOk(s, id);
      OutstandingNonNegative(s, id);
    }
  }

  lemma StepInv(s: System, a: Step)
    requires Inv(s) && Enabled(s, a)
    ensures Inv(Apply(s, a))
  {
    match a {
      case Begin(_, _) | Refuse(_) | SwapFails(_) | Reload(_) => ThreadSteps(s, a);
      case Swap(_) => SwapStep(s, a);
      case Enqueue(_) | Drop(_) => SendSteps(s, a);
      case Dequeue | Write(_) => SyncSteps(s, a);
      case StartFlush | ReadOne(_) | Commit(_) | Abort => FlushSteps(s, a);
    }
  }

  /** Every interleaving keeps the invariant. */
  lemma {:induction false} RunInv(s: System, steps: seq<Step>)
    requires Inv(s) && Runs(s, steps)
    ensures Inv(Exec(s, steps)) && Exec(s, steps).mem.Keys == s.mem.Keys
    decreases |steps|
  {
    if steps != [] {
      StepInv(s, steps[0]);
      RunInv(Apply(s, steps[0]), steps[1..]);
    }
  }

  // ---------- Results ----------

  /** Whether a step accepts a cost for token `id`, and how much. */
  function AcceptedBy(s: System, a: Step, id: Id): int
    requires Enabled(s, a)
  {
    if a.Swap? then Amount(s.threads[a.t].d, id) else 0
  }

  /** The costs accepted for a token over a run. */
  function Accepted(s: System, steps: seq<Step>, id: Id): int
    requires Runs(s, steps)
    decreases |steps|
  {
    if steps == [] then 0 else AcceptedBy(s, steps[0], id) + Accepted(Apply(s, steps[0]), steps[1..], id)
  }

  /** No deduction is lost or counted twice in memory, whatever the interleaving. */
  lemma {:induction false} MemoryIsSumOfAccepted(s: System, steps: seq<Step>, id: Id)
    requires Inv(s) && Runs(s, steps) && id in s.mem
    ensures id in Exec(s, steps).mem
    ensures Exec(s, steps).mem[id].used == s.mem[id].used + Accepted(s, steps, id)
    ensures Exec(s, steps).mem[id].total == s.mem[id].total
    ensures Exec(s, steps).ledger.Keys == s.ledger.Keys && id in s.ledger
    ensures Exec(s, steps).ledger[id].initial == s.ledger[id].initial
    ensures Accepted(s, steps, id) >= 0
    decreases |steps|
  {
    if steps != [] {
      StepInv(s, steps[0]);
      StepAccepts(s, steps[0], id);
      MemoryIsSumOfAccepted(Apply(s, steps[0]), steps[1..], id);
    }
  }

  lemma StepAccepts(s: System, a: Step, id: Id)
    requires Inv(s) && Enabled(s, a) && id in s.mem
    ensures AcceptedBy(s, a, id) >= 0
    ensures var s' := Apply(s, a);
            && id in s'.mem && s'.mem[id].total == s.mem[id].total
            && s'.mem[id].used == s.mem[id].used + AcceptedBy(s, a, id)
            && s'.ledger.Keys == s.ledger.Keys && id in s.ledger && s'.ledger[id].initial == s.ledger[id].initial
  {
    if a.Swap? {
      assert s.threads[a.t] in s.threads && ThreadOk(s.mem, s.threads[a.t]);
    }
  }

  /** A limited token that starts within its quota never exceeds it. */
  lemma QuotaIsNeverExceeded(s: System, steps: seq<Step>, id: Id)
    requires Init(s) && Runs(s, steps) && id in s.mem && s.mem[id].total > 0 && s.mem[id].used <= s.mem[id].total
    ensures id in Exec(s, steps).mem && Exec(s, steps).mem[id].used <= s.mem[id].total
  {
    InitInv(s);
    RunInv(s, steps);
    MemoryIsSumOfAccepted(s, steps, id);
    assert TokenOk(Exec(s, steps), id);
  }

  /** In every reachable state the database lies between the last committed snapshot and the memory value plus what was
      outstanding at that commit. */
  lemma DatabaseTracksMemory(s: System, steps: seq<Step>, id: Id)
    requires Init(s) && Runs(s, steps) && id in s.mem
    ensures var e := Exec(s, steps);
            && id in e.mem && id in e.db && id in e.ledger
            && e.ledger[id].base <= e.db[id] <= e.mem[id].used + e.ledger[id].pending
  {
    InitInv(s);
    RunInv(s, steps);
    assert TokenOk(Exec(s, steps), id);
    OutstandingNonNegative(Exec(s, steps), id);
  }

  /** A deduction is refused only when it would exceed the quota, and then memory is that far already. */
  lemma RefusedOnlyBeyondQuota(s: System, steps: seq<Step>, t: nat)
    requires Init(s) && Runs(s, steps) && Enabled(Exec(s, steps), Refuse(t))
    ensures var e := Exec(s, steps);
            && t < |e.threads| && e.threads[t].Loaded? && e.threads[t].d.id in e.mem
            && var c, cost := e.mem[e.threads[t].d.id], e.threads[t].d.cost;
               && e.threads[t].seen.total > 0 && e.threads[t].seen.used + cost > e.threads[t].seen.total
               && c.total > 0 && c.used + cost > c.total
  {
    InitInv(s);
    RunInv(s, steps);
    var e := Exec(s, steps);
    assert e.threads[t] in e.threads && ThreadOk(e.mem, e.threads[t]);
  }

  /** From every state, an idle goroutine that is left alone takes a deduction that fits, and refuses one that does not:
      there is no third way. */
  lemma FittingDeductionIsAccepted(s: System, t: nat, d: Delta)
    requires Inv(s) && t < |s.threads| && s.threads[t].Idle? && d.cost > 0 && d.id in s.mem
    ensures var c := s.mem[d.id];
            && Enabled(s, Begin(t, d))
            && (c.total <= 0 || c.used + d.cost <= c.total ==>
                  var steps := [Begin(t, d)] + ([Swap(t)] + []);
                  && Runs(s, steps) && d.id in Exec(s, steps).mem
                  && Exec(s, steps).mem[d.id].used == c.used + d.cost && Exec(s, steps).mem[d.id].total == c.total
                  && forall id | id in s.mem && id != d.id ::
                       id in Exec(s, steps).mem && Exec(s, steps).mem[id] == s.mem[id])
            && (c.total > 0 && c.used + d.cost > c.total ==>
                  var steps := [Begin(t, d)] + ([Refuse(t)] + []);
                  Runs(s, steps) && Exec(s, steps).mem == s.mem)
  {
    var loaded := Apply(s, Begin(t, d));
    assert loaded.threads[t] == Loaded(d, s.mem[d.id]);
    var c := s.mem[d.id];
    if c.total <= 0 || c.used + d.cost <= c.total {
      Behind(loaded, [], Swap(t));
      Behind(s, [Swap(t)] + [], Begin(t, d));
    } else {
      Behind(loaded, [], Refuse(t));
      Behind(s, [Refuse(t)] + [], Begin(t, d));
    }
  }

  /** An accepted deduction is dropped only when the channel is full; otherwise it can be sent, and goes to its end. */
  lemma DroppedOnlyWhenFull(s: System, t: nat)
    requires Inv(s) && t < |s.threads| && s.threads[t].Won?
    ensures Enabled(s, Drop(t)) <==> |s.channel| == 2048
    ensures Enabled(s, Enqueue(t)) <==> |s.channel| < 2048
    ensures Enabled(s, Enqueue(t)) ==>
              var e := Apply(s, Enqueue(t)); e.channel == s.channel + [s.threads[t].d] && e.threads[t].Idle?
  {
    assert s.threads[t] in s.threads && ThreadOk(s.mem, s.threads[t]);
  }

  /** The writer takes the oldest delta whenever it holds none, and adds its cost to the row, or loses it. */
  lemma OldestIsWritten(s: System)
    requires Inv(s)
    ensures Enabled(s, Dequeue) <==> s.hand.None? && s.channel != []
    ensures Enabled(s, Dequeue) ==>
              Apply(s, Dequeue).hand == Some(s.channel[0]) && Apply(s, Dequeue).channel == s.channel[1..]
    ensures s.hand.Some? ==>
              var d := s.hand.value;
              && Enabled(s, Write(true)) && Apply(s, Write(true)).db == s.db[d.id := s.db[d.id] + d.cost]
              && Enabled(s, Write(false)) && Apply(s, Write(false)).db == s.db
              && Apply(s, Write(true)).hand.None? && Apply(s, Write(false)).hand.None?
  {
    assert s.hand.Some? ==> DeltaOk(s.mem, s.hand.value);
  }

  predicate Quiet(a: Step) {
    !a.Commit? && !a.Abort?
  }

  /** While a flush is under way its snapshot keeps what it read. */
  lemma {:induction false} SnapshotIsKept(s: System, steps: seq<Step>, id: Id)
    requires Runs(s, steps) && (forall a | a in steps :: Quiet(a))
    requires s.flusher.Reading? && id in s.flusher.snap
    ensures var f := Exec(s, steps).flusher; f.Reading? && id in f.snap && f.snap[id] == s.flusher.snap[id]
    decreases |steps|
  {
    if steps != [] {
      assert Quiet(steps[0]);
      SnapshotIsKept(Apply(s, steps[0]), steps[1..], id);
    }
  }

  /** A flush of token `id`: its value is read, other steps follow, the snapshot is committed with its row. */
  ghost predicate Flush(s: System, mid: seq<Step>, rows: set<Id>, id: Id) {
    && Inv(s) && Enabled(s, ReadOne(id)) && Runs(Apply(s, ReadOne(id)), mid) && (forall a | a in mid :: Quiet(a))
    && Enabled(Exec(Apply(s, ReadOne(id)), mid), Commit(rows)) && id in rows
  }

  function Committed(s: System, mid: seq<Step>, rows: set<Id>, id: Id): System
    requires Flush(s, mid, rows, id)
  {
    Apply(Exec(Apply(s, ReadOne(id)), mid), Commit(rows))
  }

  /** A commit leaves the database behind memory by exactly what was accepted since the value was read. */
  lemma CommitLagsByAccepted(s: System, mid: seq<Step>, rows: set<Id>, id: Id)
    requires Flush(s, mid, rows, id)
    ensures var c, q := Committed(s, mid, rows, id), Exec(Apply(s, ReadOne(id)), mid);
            && Inv(c) && id in c.mem && id in c.db && id in c.ledger
            && c.db[id] == c.mem[id].used - Accepted(Apply(s, ReadOne(id)), mid, id)
            && c.ledger[id].base == c.db[id] && c.ledger[id].memAt == c.mem[id].used
            && c.ledger[id].pending == Outstanding(q, id) && c.ledger[id].lost == 0
  {
    var r := Apply(s, ReadOne(id));
    var q := Exec(r, mid);
    StepInv(s, ReadOne(id));
    RunInv(r, mid);
    MemoryIsSumOfAccepted(r, mid, id);
    SnapshotIsKept(r, mid, id);
    StepInv(q, Commit(rows));
  }

  /** So the commit makes the two equal if and only if nothing was accepted in between. And if nothing was outstanding
      either, then until the next commit the database only ever lags by what is outstanding or lost. */
  lemma CleanFlush(s: System, mid: seq<Step>, rows: set<Id>, id: Id, later: seq<Step>)
    requires Flush(s, mid, rows, id)
    requires Runs(Committed(s, mid, rows, id), later) && forall a | a in later :: Quiet(a)
    ensures var r, c := Apply(s, ReadOne(id)), Committed(s, mid, rows, id);
            var e := Exec(c, later);
            && id in c.mem && id in c.db && (c.db[id] == c.mem[id].used <==> Accepted(r, mid, id) == 0)
            && id in e.mem && id in e.db && id in e.ledger
            && (Accepted(r, mid, id) == 0 && Outstanding(Exec(r, mid), id) == 0 ==>
                  e.db[id] == e.mem[id].used - Outstanding(e, id) - e.ledger[id].lost && e.db[id] <= e.mem[id].used)
  {
    CommitLagsByAccepted(s, mid, rows, id);
    var r, c := Apply(s, ReadOne(id)), Committed(s, mid, rows, id);
    RunInv(c, later);
    if Accepted(r, mid, id) == 0 && Outstanding(Exec(r, mid), id) == 0 {
      Lags(c, later, id);
    }
  }

  lemma {:induction false} Lags(s: System, steps: seq<Step>, id: Id)
    requires Inv(s) && Runs(s, steps) && (forall a | a in steps :: Quiet(a)) && id in s.mem
    requires s.ledger[id].base == s.ledger[id].memAt && s.ledger[id].pending == 0
    ensures var e := Exec(s, steps);
            && id in e.mem && id in e.db && id in e.ledger
            && e.db[id] == e.mem[id].used - Outstanding(e, id) - e.ledger[id].lost && e.db[id] <= e.mem[id].used
    decreases |steps|
  {
    if steps == [] {
      assert TokenOk(s, id);
      OutstandingNonNegative(s, id);
    } else {
      assert Quiet(steps[0]);
      StepInv(s, steps[0]);
      Lags(Apply(s, steps[0]), steps[1..], id);
    }
  }

  // ---------- When the database gets ahead ----------

  lemma StepKeepsLedger(s: System, a: Step, id: Id)
    requires Inv(s) && Enabled(s, a) && Quiet(a) && id in s.mem
    ensures var e := Apply(s, a);
            id in e.mem && id in e.ledger && e.ledger[id] == s.ledger[id].(lost := e.ledger[id].lost)
  {
  }

  lemma {:induction false} LedgerIsKept(s: System, steps: seq<Step>, id: Id)
    requires Inv(s) && Runs(s, steps) && (forall a | a in steps :: Quiet(a)) && id in s.mem
    ensures var e := Exec(s, steps);
            && Inv(e) && id in e.mem && id in e.ledger
            && e.ledger[id] == s.ledger[id].(lost := e.ledger[id].lost)
    decreases |steps|
  {
    if steps != [] {
      assert Quiet(steps[0]);
      StepInv(s, steps[0]);
      StepKeepsLedger(s, steps[0], id);
      LedgerIsKept(Apply(s, steps[0]), steps[1..], id);
    }
  }

  function Winners(threads: seq<Thread>): nat {
    if threads == [] then 0 else (if threads[0].Won? then 1 else 0) + Winners(threads[1..])
  }

  lemma {:induction false} WinnerLeaves(threads: seq<Thread>, t: nat)
    requires t < |threads| && threads[t].Won?
    ensures Winners(threads[t := Idle]) == Winners(threads) - 1
  {
    if t == 0 {
      assert threads[t := Idle][1..] == threads[1..];
    } else {
      assert threads[t := Idle][1..] == threads[1..][t - 1 := Idle];
      WinnerLeaves(threads[1..], t - 1);
    }
  }

  /** Deltas still on their way, counted by the steps each needs. */
  function Work(s: System): nat {
    3 * Winners(s.threads) + 2 * |s.channel| + if s.hand.Some? then 1 else 0
  }

  /** All deltas can be brought to the database, without any being lost and without a commit. */
  lemma {:induction false} Drains(s: System, id: Id) returns (steps: seq<Step>)
    requires Inv(s) && id in s.mem
    ensures Runs(s, steps) && (forall a | a in steps :: Quiet(a))
    ensures Outstanding(Exec(s, steps), id) == 0 && Exec(s, steps).ledger == s.ledger && Exec(s, steps).mem == s.mem
    decreases Work(s)
  {
    if s.hand.Some? {
      steps := DrainBy(s, Write(true), id);
    } else if s.channel != [] {
      assert s.channel[0] in s.channel;
      steps := DrainBy(s, Dequeue, id);
    } else if t: nat :| t < |s.threads| && s.threads[t].Won? {
      WinnerLeaves(s.threads, t);
      steps := DrainBy(s, Enqueue(t), id);
    } else {
      steps := [];
      NothingCarried(s.threads, id);
    }
  }

  lemma {:induction false} DrainBy(s: System, a: Step, id: Id) returns (steps: seq<Step>)
    requires Inv(s) && id in s.mem && Enabled(s, a) && Quiet(a)
    requires Apply(s, a).ledger == s.ledger && Apply(s, a).mem == s.mem && Work(Apply(s, a)) < Work(s)
    ensures Runs(s, steps) && (forall b | b in steps :: Quiet(b))
    ensures Outstanding(Exec(s, steps), id) == 0 && Exec(s, steps).ledger == s.ledger && Exec(s, steps).mem == s.mem
    decreases Work(s), 0
  {
    StepInv(s, a);
    var rest := Drains(Apply(s, a), id);
    steps := [a] + rest;
    Behind(s, rest, a);
  }

  /** After a commit and until the next one, the database never gets ahead of memory, whatever happens, if and only if
      what was outstanding at the commit is no more than what was accepted between read and commit. */
  lemma AheadExactly(s: System, mid: seq<Step>, rows: set<Id>, id: Id)
    requires Flush(s, mid, rows, id)
    ensures var r, c := Apply(s, ReadOne(id)), Committed(s, mid, rows, id);
            (forall later | Runs(c, later) && forall a | a in later :: Quiet(a) :: NotAhead(Exec(c, later), id))
            <==> Outstanding(Exec(r, mid), id) <= Accepted(r, mid, id)
  {
    CommitLagsByAccepted(s, mid, rows, id);
    var r, c := Apply(s, ReadOne(id)), Committed(s, mid, rows, id);
    if Outstanding(Exec(r, mid), id) <= Accepted(r, mid, id) {
      forall later | Runs(c, later) && forall a | a in later :: Quiet(a) ensures NotAhead(Exec(c, later), id) {
        LedgerIsKept(c, later, id);
        OutstandingNonNegative(Exec(c, later), id);
        assert TokenOk(Exec(c, later), id);
      }
    } else {
      var later := Drains(c, id);
      LedgerIsKept(c, later, id);
      assert TokenOk(Exec(c, later), id);
      assert !NotAhead(Exec(c, later), id);
    }
  }

  predicate NotAhead(s: System, id: Id) {
    id in s.mem && id in s.db && s.db[id] <= s.mem[id].used
  }

  // ---------- Every failed swap is another's success ----------

  predicate ByThread(a: Step, t: nat) {
    match a
    case Begin(u, _) => u == t
    case Refuse(u) => u == t
    case Swap(u) => u == t
    case SwapFails(u) => u == t
    case Reload(u) => u == t
    case Enqueue(u) => u == t
    case Drop(u) => u == t
    case _ => false
  }

  /** Step `k` of the run publishes a new state of token `id`. */
  ghost predicate Publishes(s: System, steps: seq<Step>, k: nat, id: Id)
    requires Runs(s, steps) && k < |steps|
    decreases |steps|
  {
    if k == 0 then steps[0].Swap? && s.threads[steps[0].t].d.id == id
    else Publishes(Apply(s, steps[0]), steps[1..], k - 1, id)
  }

  lemma {:induction false} VersionChangesBySwap(s: System, steps: seq<Step>, id: Id) returns (k: nat)
    requires Inv(s) && Runs(s, steps) && id in s.mem && id in Exec(s, steps).mem
    requires Exec(s, steps).mem[id].version != s.mem[id].version
    ensures k < |steps| && Publishes(s, steps, k, id)
    decreases |steps|
  {
    var a := steps[0];
    if a.Swap? && s.threads[a.t].d.id == id {
      k := 0;
    } else {
      StepInv(s, a);
      var j := VersionChangesBySwap(Apply(s, a), steps[1..], id);
      k := j + 1;
    }
  }

  lemma {:induction false} ThreadWaits(s: System, steps: seq<Step>, t: nat)
    requires Runs(s, steps) && t < |s.threads| && forall a | a in steps :: !ByThread(a, t)
    ensures |Exec(s, steps).threads| == |s.threads| && Exec(s, steps).threads[t] == s.threads[t]
    decreases |steps|
  {
    if steps != [] {
      assert !ByThread(steps[0], t);
      ThreadWaits(Apply(s, steps[0]), steps[1..], t);
    }
  }

  /** Lock freedom: if a goroutine's swap fails, then since it loaded the state another goroutine's swap on the same
      token has succeeded. */
  lemma FailedSwapMeansProgress(s: System, load: Step, wait: seq<Step>, t: nat) returns (k: nat)
    requires Inv(s) && Enabled(s, load) && (load.Begin? || load.Reload?) && load.t == t
    requires Runs(Apply(s, load), wait) && (forall a | a in wait :: !ByThread(a, t))
    requires Enabled(Exec(Apply(s, load), wait), SwapFails(t))
    ensures k < |wait| && wait[k].Swap? && wait[k].t != t
    ensures Publishes(Apply(s, load), wait, k, Apply(s, load).threads[t].d.id)
  {
    var l := Apply(s, load);
    var id := l.threads[t].d.id;
    StepInv(s, load);
    ThreadWaits(l, wait, t);
    assert s.threads[t] in s.threads;
    k := VersionChangesBySwap(l, wait, id);
    PublisherSwaps(l, wait, k, id);
    assert wait[k] in wait;
  }

  lemma {:induction false} PublisherSwaps(s: System, steps: seq<Step>, k: nat, id: Id)
    requires Runs(s, steps) && k < |steps| && Publishes(s, steps, k, id)
    ensures steps[k].Swap?
    decreases |steps|
  {
    if k > 0 {
      PublisherSwaps(Apply(s, steps[0]), steps[1..], k - 1, id);
    }
  }

  // ---------- The upper bound is reached ----------

  function Lone(id: Id, used: int): System {
    System(map[id := Cell(0, used, 0)], map[id := used], [], None, [Idle], Resting,
           map[id := Ledger(used, used, 0, used, 0)])
  }

  /** The flush counts a delta that is still queued, and the queue then applies it again: the database overshoots by the
      full outstanding amount. The run is returned. */
  lemma DoubleCounting(id: Id, used: int, cost: int) returns (steps: seq<Step>)
    requires cost > 0
    ensures Init(Lone(id, used)) && Runs(Lone(id, used), steps)
    ensures var e := Exec(Lone(id, used), steps);
            && e.mem == map[id := Cell(0, used + cost, 1)] && e.db == map[id := used + cost + cost]
            && e.ledger == map[id := Ledger(used, used + cost, cost, used + cost, 0)]
            && e.channel == [] && e.hand.None? && e.threads == [Idle]
  {
    var s := Lone(id, used);
    var sent := Sent(s, id, cost);
    steps := [Begin(0, Delta(id, cost))] + ([Swap(0)] + ([Enqueue(0)] + (
      [StartFlush] + ([ReadOne(id)] + ([Commit({id})] + ([Dequeue] + ([Write(true)] + [])))))));
    var tail := [Dequeue] + ([Write(true)] + []);
    OneOutstanding(sent, Delta(id, cost));
    DrainRuns(Flushed(sent, id, used + cost), Delta(id, cost));
    FlushRuns(sent, id, used + cost, tail);
    SentRuns(s, id, cost, [StartFlush] + ([ReadOne(id)] + ([Commit({id})] + tail)));
  }

  lemma OneOutstanding(s: System, d: Delta)
    requires s.channel == [d] && s.hand.None? && s.threads == [Idle]
    ensures Outstanding(s, d.id) == d.cost
  {
    assert s.channel[1..] == [] && s.threads[1..] == [];
    assert Queued(s.channel, d.id) == d.cost + Queued([], d.id) && Carried(s.threads, d.id) == Carried([], d.id);
  }

  lemma DrainRuns(s: System, d: Delta)
    requires s.channel == [d] && s.hand.None? && d.id in s.db && d.id in s.ledger
    ensures var steps := [Dequeue] + ([Write(true)] + []);
            Runs(s, steps) && Exec(s, steps) == s.(channel := [], db := s.db[d.id := s.db[d.id] + d.cost])
  {
    var taken := Apply(s, Dequeue);
    assert taken == s.(channel := [], hand := Some(d));
    Behind(taken, [], Write(true));
    Behind(s, [Write(true)] + [], Dequeue);
  }

  function Sent(s: System, id: Id, cost: int): System
    requires id in s.db && s == Lone(id, s.db[id]) && cost > 0
  {
    s.(mem := map[id := Cell(0, s.db[id] + cost, 1)], channel := [Delta(id, cost)])
  }

  lemma SentRuns(s: System, id: Id, cost: int, more: seq<Step>)
    requires id in s.db && s == Lone(id, s.db[id]) && cost > 0 && Runs(Sent(s, id, cost), more)
    ensures var steps := [Begin(0, Delta(id, cost))] + ([Swap(0)] + ([Enqueue(0)] + more));
            Runs(s, steps) && Exec(s, steps) == Exec(Sent(s, id, cost), more)
  {
    var d := Delta(id, cost);
    var s1 := Apply(s, Begin(0, d));
    var s2 := Apply(s1, Swap(0));
    assert s2.threads == [Won(d)];
    assert Apply(s2, Enqueue(0)) == Sent(s, id, cost);
    Behind(s2, more, Enqueue(0));
    Behind(s1, [Enqueue(0)] + more, Swap(0));
    Behind(s, [Swap(0)] + ([Enqueue(0)] + more), Begin(0, d));
  }

  function Flushed(s: System, id: Id, used: int): System
    requires id in s.ledger
  {
    s.(db := map[id := used],
       ledger := map[id := s.ledger[id].(base := used, pending := Outstanding(s, id), memAt := used, lost := 0)])
  }

  lemma FlushRuns(s: System, id: Id, used: int, more: seq<Step>)
    requires s.mem.Keys == s.db.Keys == s.ledger.Keys == {id} && s.mem[id].used == used && s.flusher.Resting?
    requires Runs(Flushed(s, id, used), more)
    ensures var steps := [StartFlush] + ([ReadOne(id)] + ([Commit({id})] + more));
            Runs(s, steps) && Exec(s, steps) == Exec(Flushed(s, id, used), more)
  {
    var s1 := Apply(s, StartFlush);
    var s2 := Apply(s1, ReadOne(id));
    assert Outstanding(s2, id) == Outstanding(s, id);
    assert Apply(s2, Commit({id})) == Flushed(s, id, used);
    Behind(s2, more, Commit({id}));
    Behind(s1, [Commit({id})] + more, ReadOne(id));
    Behind(s, [ReadOne(id)] + ([Commit({id})] + more), StartFlush);
  }

  lemma Behind(s: System, steps: seq<Step>, a: Step)
    requires Enabled(s, a) && Runs(Apply(s, a), steps)
    ensures Runs(s, [a] + steps) && Exec(s, [a] + steps) == Exec(Apply(s, a), steps)
  {
    assert ([a] + steps)[1..] == steps;
  }
}
