/**
 The deadline scheduler over every run: its indexes agree, no request is lost, the fifo lists are
 in the order of expiry, and writes are not starved.
 */
module DeadlineRuns {
  import opened Wrappers
  import opened Deadline

  // ---------- The order of the fifo lists ----------

  lemma {:induction false} DropInOrder(f: seq<Timed>, i: nat, t: int)
    requires InOrder(f) && NotLater(f, t)
    ensures InOrder(Drop(f, i)) && NotLater(Drop(f, i), t)
  {
    var g := Drop(f, i);
    assert i < |f| ==> forall k :: 0 <= k < |g| ==> g[k] == (if k < i then f[k] else f[k + 1]);
  }

  lemma {:induction false} MoveFifo(c: Settings, d: Data, write: bool, id: nat)
    requires FifoOk(c, d)
    ensures FifoOk(c, Move(d, write, id)) && Move(d, write, id).now == d.now
  {
    var f := Of(d, write).fifo;
    DropInOrder(f, FifoIndex(f, id), d.now + Expire(c, write));
  }

  lemma {:induction false} MakeRoomFifo(c: Settings, d: Data, write: bool, pos: nat)
    requires FifoOk(c, d)
    ensures FifoOk(c, MakeRoom(d, write, pos)) && MakeRoom(d, write, pos).now == d.now
  {
    var alias := Alias(Of(d, write).sort, pos);
    if alias.Some? {
      MoveFifo(c, d, write, alias.value);
    }
  }

  lemma {:induction false} AddRbFifo(c: Settings, d: Data, write: bool, e: Entry)
    requires FifoOk(c, d)
    ensures FifoOk(c, AddRb(d, write, e)) && AddRb(d, write, e).now == d.now
  {
    MakeRoomFifo(c, d, write, e.pos);
  }

  lemma {:induction false} EnterFifo(c: Settings, d: Data, write: bool, e: Entry, now: int)
    requires FifoOk(c, d) && d.now <= now
    ensures FifoOk(c, Enter(d, write, e, Timed(e.id, now + Expire(c, write)), now))
  {
  }

  lemma {:induction false} AddFifo(c: Settings, d: Data, write: bool, id: nat, pos: nat, now: int)
    requires FifoOk(c, d) && d.now <= now
    ensures FifoOk(c, Add(c, d, write, id, pos, now))
  {
    AddEnters(c, d, write, id, pos, now);
    MakeRoomFifo(c, d.(nrSorted := d.nrSorted + 1), write, pos);
    EnterFifo(c, MakeRoom(d.(nrSorted := d.nrSorted + 1), write, pos), write, Entry(id, pos), now);
  }

  lemma {:induction false} FrontMergedFifo(c: Settings, d: Data, write: bool, id: nat, pos: nat)
    requires FifoOk(c, d)
    ensures FifoOk(c, FrontMerged(d, write, id, pos)) && FrontMerged(d, write, id, pos).now == d.now
  {
    var s := Of(d, write);
    AddRbFifo(c, With(d, write, s.(sort := Drop(s.sort, IndexOf(s.sort, id)))), write, Entry(id, pos));
  }

  lemma {:induction false} InsertInOrder(g: seq<Timed>, k: nat, x: Timed, t: int)
    requires InOrder(g) && NotLater(g, t) && k <= |g| && x.expires <= t
    requires (k > 0 ==> g[k - 1].expires <= x.expires) && (k < |g| ==> x.expires <= g[k].expires)
    ensures InOrder(g[..k] + [x] + g[k..]) && NotLater(g[..k] + [x] + g[k..], t)
  {
    var h := g[..k] + [x] + g[k..];
    assert forall i :: 0 <= i < |h| ==> h[i] == (if i < k then g[i] else if i == k then x else g[i - 1]);
  }

  /** A request that takes over an earlier deadline moves to the place of that deadline. */
  lemma {:induction false} HastenInOrder(f: seq<Timed>, rq: nat, next: nat, t: int)
    requires InOrder(f) && NotLater(f, t)
    ensures InOrder(Hasten(f, rq, next)) && NotLater(Hasten(f, rq, next), t)
  {
    var i, j := FifoIndex(f, rq), FifoIndex(f, next);
    if i < |f| && j < |f| && i != j && f[j].expires < f[i].expires {
      var g := Drop(f, i);
      DropInOrder(f, i, t);
      assert j < i && g[j] == f[j];
      var k := FifoIndex(g, next);
      assert forall m :: 0 <= m < j ==> g[m] == f[m];
      assert k == j;
      InsertInOrder(g, k + 1, Timed(rq, f[j].expires), t);
    }
  }

  lemma {:induction false} MergedFifo(c: Settings, d: Data, write: bool, rq: nat, next: nat)
    requires FifoOk(c, d)
    ensures FifoOk(c, MergedRequests(d, write, rq, next)) && MergedRequests(d, write, rq, next).now == d.now
  {
    var f := Of(d, write).fifo;
    var t := d.now + Expire(c, write);
    HastenInOrder(f, rq, next, t);
    var g := Hasten(f, rq, next);
    DropInOrder(g, FifoIndex(g, next), t);
  }

  lemma {:induction false} FifoFrame(c: Settings, d: Data, batching: nat, starved: nat, now: int)
    requires FifoOk(c, d) && d.now <= now
    ensures FifoOk(c, d.(batching := batching, starved := starved, now := now))
  {
  }

  lemma {:induction false} DispatchFifo(c: Settings, d: Data, now: int)
    requires FifoOk(c, d) && d.now <= now
    ensures FifoOk(c, Dispatch(c, d, now).0)
  {
    var rq := BatchNext(d);
    if rq.Some? && d.batching < c.fifoBatch {
      FifoFrame(c, d, d.batching + 1, d.starved, now);
      MoveFifo(c, d.(batching := d.batching + 1, starved := d.starved, now := now), d.writeSide.next.Some?, rq.value);
    } else if d.readSide.fifo != [] && !(d.writeSide.fifo != [] && d.starved >= c.writesStarved) {
      var starved := if d.writeSide.fifo != [] then d.starved + 1 else d.starved;
      FifoFrame(c, d, 1, starved, now);
      MoveFifo(c, d.(batching := 1, starved := starved, now := now), false, BatchStart(d.readSide, now));
    } else if d.writeSide.fifo != [] {
      FifoFrame(c, d, 1, 0, now);
      MoveFifo(c, d.(batching := 1, starved := 0, now := now), true, BatchStart(d.writeSide, now));
    } else {
      FifoFrame(c, d, d.batching, d.starved, now);
    }
  }

  /** With the list in order, its head tells whether any request on it has expired. */
  lemma {:induction false} HeadTells(s: Side, now: int)
    requires InOrder(s.fifo) && s.fifo != []
    ensures HeadExpired(s, now) <==> exists i :: 0 <= i < |s.fifo| && now > s.fifo[i].expires
  {
    if HeadExpired(s, now) {
      assert now > s.fifo[0].expires;
    }
  }

  // ---------- Batches and starvation ----------

  /** The length of a batch: even with fifo_batch 0 a batch serves the request it starts with. */
  function Batch(c: Settings): nat {
    if c.fifoBatch == 0 then 1 else c.fifoBatch
  }

  /** The bounds of the two counters. */
  predicate CountersOk(c: Settings, d: Data) {
    d.starved <= c.writesStarved && d.batching <= Batch(c)
  }

  /** How many more reads may be served while a write waits. */
  function Patience(c: Settings, d: Data): int {
    (c.writesStarved - d.starved) * Batch(c) + (Batch(c) - d.batching)
  }

  lemma {:induction false} DispatchCounters(c: Settings, d: Data, now: int)
    requires CountersOk(c, d)
    ensures CountersOk(c, Dispatch(c, d, now).0)
  {
  }

  /** Serving a read while a write waits uses up patience. */
  lemma {:induction false} ReadUsesPatience(c: Settings, d: Data, now: int)
    requires CountersOk(c, d) && d.writeSide.fifo != [] && Dispatch(c, d, now).1 == Read
    ensures Patience(c, Dispatch(c, d, now).0) < Patience(c, d)
  {
    var d' := Dispatch(c, d, now).0;
    if BatchNext(d).Some? && d.batching < c.fifoBatch {
      assert d'.starved == d.starved && d'.batching == d.batching + 1;
    } else {
      assert d'.starved == d.starved + 1 && d'.batching == 1;
      calc {
        Patience(c, d');
        (c.writesStarved - d.starved - 1) * Batch(c) + Batch(c) - 1;
        (c.writesStarved - d.starved) * Batch(c) - 1;
      }
    }
  }

  // ---------- Runs ----------

  datatype Action =
    | AddAction(write: bool, id: nat, pos: nat, now: int)
    | FrontAction(write: bool, id: nat, pos: nat)
    | MergeAction(write: bool, rq: nat, next: nat)
    | DispatchAction(now: int)

  predicate Enabled(d: Data, a: Action) {
    match a
    case AddAction(_, id, _, now) => id !in d.added && d.now <= now
    case FrontAction(write, id, _) => id in Ids(Of(d, write).sort)
    case MergeAction(write, rq, next) => rq != next && rq in Ids(Of(d, write).sort) && next in Ids(Of(d, write).sort)
    case DispatchAction(now) => d.now <= now
  }

  function Exec(c: Settings, d: Data, a: Action): Data {
    match a
    case AddAction(write, id, pos, now) => Add(c, d, write, id, pos, now)
    case FrontAction(write, id, pos) => FrontMerged(d, write, id, pos)
    case MergeAction(write, rq, next) => MergedRequests(d, write, rq, next)
    case DispatchAction(now) => Dispatch(c, d, now).0
  }

  predicate IsRun(c: Settings, d: Data, run: seq<Action>)
    decreases |run|
  {
    run == [] || (Enabled(d, run[0]) && IsRun(c, Exec(c, d, run[0]), run[1..]))
  }

  function After(c: Settings, d: Data, run: seq<Action>): Data
    decreases |run|
  {
    if run == [] then d else After(c, Exec(c, d, run[0]), run[1..])
  }

  function Start(now: int): Data {
    Data(Side([], [], None), Side([], [], None), 0, 0, 0, [], [], [], now)
  }

  ghost predicate Good(c: Settings, d: Data) {
    Inv(d) && FifoOk(c, d) && CountersOk(c, d)
  }

  lemma {:induction false} ExecKeeps(c: Settings, d: Data, a: Action)
    requires Good(c, d) && Enabled(d, a)
    ensures Good(c, Exec(c, d, a))
  {
    match a
    case AddAction(write, id, pos, now) =>
      AddKeeps(c, d, write, id, pos, now);
      AddFifo(c, d, write, id, pos, now);
    case FrontAction(write, id, pos) =>
      FrontMergedKeeps(d, write, id, pos);
      FrontMergedFifo(c, d, write, id, pos);
    case MergeAction(write, rq, next) =>
      MergedRequestsKeeps(d, write, rq, next);
      MergedFifo(c, d, write, rq, next);
    case DispatchAction(now) =>
      DispatchKeeps(c, d, now);
      DispatchFifo(c, d, now);
      DispatchCounters(c, d, now);
  }

  lemma {:induction false} RunKeeps(c: Settings, d: Data, run: seq<Action>)
    requires Good(c, d) && IsRun(c, d, run)
    ensures Good(c, After(c, d, run))
    decreases |run|
  {
    if run != [] {
      ExecKeeps(c, d, run[0]);
      RunKeeps(c, Exec(c, d, run[0]), run[1..]);
    }
  }

  lemma {:induction false} StartIsGood(c: Settings, now: int)
    ensures Good(c, Start(now))
  {
    assert Ids([]) == [] && FifoIds([]) == [];
  }

  /**
   In every reachable state the two indexes of a direction hold the same requests, at most one
   next_rq is set and it is in its tree, and nr_sorted counts the requests held.
   */
  lemma {:induction false} IndexesAgree(c: Settings, now: int, run: seq<Action>)
    requires IsRun(c, Start(now), run)
    ensures var d := After(c, Start(now), run);
            && multiset(Ids(d.readSide.sort)) == multiset(FifoIds(d.readSide.fifo))
            && multiset(Ids(d.writeSide.sort)) == multiset(FifoIds(d.writeSide.fifo))
            && !(d.readSide.next.Some? && d.writeSide.next.Some?)
            && (d.readSide.next.Some? ==> d.readSide.next.value in Ids(d.readSide.sort))
            && (d.writeSide.next.Some? ==> d.writeSide.next.value in Ids(d.writeSide.sort))
            && d.nrSorted == |d.readSide.sort| + |d.writeSide.sort|
  {
    StartIsGood(c, now);
    RunKeeps(c, Start(now), run);
  }

  /** Every request that was added is held, dispatched or merged away, and exactly once. */
  lemma {:induction false} NothingLost(c: Settings, now: int, run: seq<Action>)
    requires IsRun(c, Start(now), run)
    ensures var d := After(c, Start(now), run);
            && Everything(d, multiset{}) == multiset(d.added)
            && forall id :: multiset(d.added)[id] <= 1
  {
    StartIsGood(c, now);
    RunKeeps(c, Start(now), run);
    var d := After(c, Start(now), run);
    forall id: nat
      ensures multiset(d.added)[id] <= 1
    {
      DistinctCount(d.added, id);
    }
  }

  /** The check of the head alone finds an expired request exactly when there is one. */
  lemma {:induction false} ExpiryFound(c: Settings, now: int, run: seq<Action>, write: bool, t: int)
    requires IsRun(c, Start(now), run)
    ensures var s := Of(After(c, Start(now), run), write);
            s.fifo != [] ==> (HeadExpired(s, t) <==> exists i :: 0 <= i < |s.fifo| && t > s.fifo[i].expires)
  {
    StartIsGood(c, now);
    RunKeeps(c, Start(now), run);
    var s := Of(After(c, Start(now), run), write);
    if s.fifo != [] {
      HeadTells(s, t);
    }
  }

  /** While a write waits, every dispatch of the run serves a read. */
  predicate ReadsOnly(c: Settings, d: Data, run: seq<Action>)
    decreases |run|
  {
    run == [] ||
    (&& (run[0].DispatchAction? ==> d.writeSide.fifo != [] && Dispatch(c, d, run[0].now).1 == Read)
     && ReadsOnly(c, Exec(c, d, run[0]), run[1..]))
  }

  function Dispatches(run: seq<Action>): nat {
    if run == [] then 0 else (if run[0].DispatchAction? then 1 else 0) + Dispatches(run[1..])
  }

  /** Events other than dispatches leave the counters alone, aliases included. */
  lemma {:induction false} OthersKeepCounters(c: Settings, d: Data, a: Action)
    requires !a.DispatchAction?
    ensures Exec(c, d, a).starved == d.starved && Exec(c, d, a).batching == d.batching
  {
  }

  lemma {:induction false} DispatchUsesPatience(c: Settings, d: Data, now: int, d': Data)
    requires CountersOk(c, d) && d' == Dispatch(c, d, now).0
    requires d.writeSide.fifo != [] && Dispatch(c, d, now).1 == Read
    ensures CountersOk(c, d') && Patience(c, d') < Patience(c, d)
  {
    ReadUsesPatience(c, d, now);
    DispatchCounters(c, d, now);
  }

  lemma {:induction false} SamePatience(c: Settings, d: Data, d': Data)
    requires CountersOk(c, d) && d'.starved == d.starved && d'.batching == d.batching
    ensures CountersOk(c, d') && Patience(c, d') == Patience(c, d)
  {
  }

  lemma {:induction false} StepUsesPatience(c: Settings, d: Data, a: Action)
    requires CountersOk(c, d)
    requires a.DispatchAction? ==> d.writeSide.fifo != [] && Dispatch(c, d, a.now).1 == Read
    ensures CountersOk(c, Exec(c, d, a))
    ensures Patience(c, Exec(c, d, a)) <= Patience(c, d) - (if a.DispatchAction? then 1 else 0)
  {
    if a.DispatchAction? {
      DispatchUsesPatience(c, d, a.now, Exec(c, d, a));
    } else {
      OthersKeepCounters(c, d, a);
      SamePatience(c, d, Exec(c, d, a));
    }
  }

  lemma {:induction false} PatienceRunsOut(c: Settings, d: Data, run: seq<Action>)
    requires CountersOk(c, d) && ReadsOnly(c, d, run)
    ensures Dispatches(run) <= Patience(c, d)
    decreases |run|
  {
    if run == [] {
      PatienceIsPositive(c, d);
    } else {
      var d' := Exec(c, d, run[0]);
      StepUsesPatience(c, d, run[0]);
      PatienceRunsOut(c, d', run[1..]);
    }
  }

  lemma {:induction false} PatienceIsPositive(c: Settings, d: Data)
    requires CountersOk(c, d)
    ensures 0 <= Patience(c, d) <= (c.writesStarved + 1) * Batch(c)
  {
    Scaled(c.writesStarved - d.starved, c.writesStarved, Batch(c));
    assert (c.writesStarved + 1) * Batch(c) == c.writesStarved * Batch(c) + Batch(c);
  }

  lemma {:induction false} Scaled(a: nat, b: nat, k: nat)
    requires a <= b
    ensures 0 <= a * k <= b * k
  {
  }

  /** While some write waits, at most (writes_starved + 1) * fifo_batch dispatches in a row serve reads,
   where a fifo_batch of 0 acts as 1. */
  lemma {:induction false} WritesNotStarved(c: Settings, now: int, before: seq<Action>, run: seq<Action>)
    requires IsRun(c, Start(now), before)
    requires ReadsOnly(c, After(c, Start(now), before), run)
    ensures Dispatches(run) <= (c.writesStarved + 1) * Batch(c)
  {
    StartIsGood(c, now);
    RunKeeps(c, Start(now), before);
    var d := After(c, Start(now), before);
    PatienceRunsOut(c, d, run);
    PatienceIsPositive(c, d);
  }
}
