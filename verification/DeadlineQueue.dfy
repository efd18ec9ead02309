/**
 The deadline scheduler as the object whose fields its functions update.
 */
module DeadlineQueue {
  import opened Wrappers
  import opened Deadline

  /** elv_drain_elevator: dispatching until nothing is served. */
  function Drained(c: Settings, d: Data, now: int): (r: Data)
    requires Inv(d)
    ensures Inv(r) && Waiting(r) == 0 && r.added == d.added && r.merged == d.merged
    decreases Waiting(d)
  {
    DispatchKeeps(c, d, now);
    var (d', served) := Dispatch(c, d, now);
    if served == Nothing then d' else DispatchLogs(c, d, now); Drained(c, d', now)
  }

  lemma {:induction false} DispatchLogs(c: Settings, d: Data, now: int)
    ensures Dispatch(c, d, now).0.added == d.added && Dispatch(c, d, now).0.merged == d.merged
  {
  }

  /** After a drain nothing is held: every request was dispatched or had been merged away. */
  lemma {:induction false} DrainLeavesNothing(c: Settings, d: Data, now: int)
    requires Inv(d)
    ensures var r := Drained(c, d, now);
            && r.readSide.sort == [] && r.writeSide.sort == [] && r.nrSorted == 0
            && multiset(r.dispatched) + multiset(d.merged) == multiset(d.added)
  {
    var r := Drained(c, d, now);
    EmptySide(r.readSide);
    EmptySide(r.writeSide);
  }

  lemma {:induction false} EmptySide(s: Side)
    requires SideOk(s, multiset{}) && s.fifo == []
    ensures s.sort == []
  {
    assert FifoIds(s.fifo) == [];
    assert |multiset(Ids(s.sort))| == |s.sort|;
  }

  /** The state with a request at the end of a fifo. */
  function Queued(c: Settings, d: Data, write: bool, id: nat, time: int): Data {
    var s := Of(d, write);
    With(d, write, s.(fifo := s.fifo + [Timed(id, time + Expire(c, write))]))
  }

  /** Adding is entering the tree, then the fifo. */
  lemma {:induction false} AddedParts(c: Settings, d: Data, write: bool, id: nat, pos: nat, time: int, e: Data)
    requires e == Queued(c, AddRb(d.(nrSorted := d.nrSorted + 1), write, Entry(id, pos)), write, id, time)
    ensures e.(added := e.added + [id], now := time) == Add(c, d, write, id, pos, time)
  {
    AddEnters(c, d, write, id, pos, time);
  }

  class DeadlineData {
    const c: Settings
    var readSide: Side
    var writeSide: Side
    var batching: nat
    var starved: nat
    var nrSorted: int
    var dispatched: seq<nat>
    var added: seq<nat>
    var merged: seq<nat>
    var now: int

    function View(): Data
      reads this
    {
      Data(readSide, writeSide, batching, starved, nrSorted, dispatched, added, merged, now)
    }

    constructor (settings: Settings, now: int)
      ensures c == settings
      ensures View() == Data(Side([], [], None), Side([], [], None), 0, 0, 0, [], [], [], now)
    {
      c := settings;
      readSide, writeSide := Side([], [], None), Side([], [], None);
      batching, starved, nrSorted := 0, 0, 0;
      dispatched, added, merged := [], [], [];
      this.now := now;
    }

    method SetSide(write: bool, s: Side)
      modifies `readSide, `writeSide
      ensures View() == With(old(View()), write, s)
    {
      if write {
        writeSide := s;
      } else {
        readSide := s;
      }
    }

    /** deadline_remove_request */
    method RemoveRequest(write: bool, id: nat)
      modifies `readSide, `writeSide
      ensures View() == With(old(View()), write, Removed(Of(old(View()), write), id))
    {
      var s := if write then writeSide else readSide;
      s := s.(fifo := Drop(s.fifo, FifoIndex(s.fifo, id)));
      if s.next == Some(id) {
        s := s.(next := Latter(s.sort, id));
      }
      s := s.(sort := Drop(s.sort, IndexOf(s.sort, id)));
      SetSide(write, s);
    }

    /** deadline_move_request */
    method MoveRequest(write: bool, id: nat)
      modifies `readSide, `writeSide, `dispatched, `nrSorted
      ensures View() == Move(old(View()), write, id)
    {
      readSide := readSide.(next := None);
      writeSide := writeSide.(next := None);
      if write {
        writeSide := writeSide.(next := Latter(writeSide.sort, id));
      } else {
        readSide := readSide.(next := Latter(readSide.sort, id));
      }
      RemoveRequest(write, id);
      nrSorted := nrSorted - 1;
      dispatched := dispatched + [id];
    }

    /** The tree of a direction has no equal keys. */
    predicate Ordered(write: bool)
      reads this
    {
      var s := Of(View(), write).sort;
      && (forall i, j :: 0 <= i < j < |s| ==> s[i].pos < s[j].pos)
      && (forall i, j :: 0 <= i < j < |s| ==> s[i].id != s[j].id)
    }

    /** deadline_add_rq_rb: its loop ends after at most one alias. */
    method AddRqRb(write: bool, e: Entry)
      requires Ordered(write)
      modifies `readSide, `writeSide, `dispatched, `nrSorted
      ensures View() == AddRb(old(View()), write, e)
    {
      ghost var d := View();
      var alias := Alias((if write then writeSide else readSide).sort, e.pos);
      while alias.Some?
        invariant View() == d || (View() == MakeRoom(d, write, e.pos) && alias.None?)
        invariant alias == Alias(Of(View(), write).sort, e.pos)
        decreases alias.Some?
      {
        AliasGone(Of(d, write).sort, e.pos);
        MoveRequest(write, alias.value);
        alias := Alias((if write then writeSide else readSide).sort, e.pos);
      }
      var s := if write then writeSide else readSide;
      SetSide(write, s.(sort := Insert(s.sort, e)));
    }

    /** deadline_add_request: into the tree, then at the end of the fifo. */
    method AddToQueues(write: bool, id: nat, pos: nat, time: int)
      requires Ordered(write)
      modifies `readSide, `writeSide, `dispatched, `nrSorted
      ensures View() == Queued(c, AddRb(old(View()), write, Entry(id, pos)), write, id, time)
    {
      AddRqRb(write, Entry(id, pos));
      var s := if write then writeSide else readSide;
      SetSide(write, s.(fifo := s.fifo + [Timed(id, time + Expire(c, write))]));
    }

    method CountSorted()
      modifies `nrSorted
      ensures View() == old(View()).(nrSorted := old(nrSorted) + 1)
    {
      nrSorted := nrSorted + 1;
    }

    /** elv_insert of a request the scheduler sorts. */
    method AddRequest(write: bool, id: nat, pos: nat, time: int)
      requires Ordered(write)
      modifies `readSide, `writeSide, `dispatched, `nrSorted, `added, `now
      ensures View() == Add(c, old(View()), write, id, pos, time)
    {
      CountSorted();
      AddToQueues(write, id, pos, time);
      ghost var e := View();
      AddedParts(c, old(View()), write, id, pos, time, e);
      Log(id, time);
    }

    /** What the statements keep of an addition. */
    method Log(id: nat, time: int)
      modifies `added, `now
      ensures View() == old(View()).(added := old(added) + [id], now := time)
    {
      added := added + [id];
      now := time;
    }

    /** deadline_merged_request, for a front merge. */
    method MergedRequest(write: bool, id: nat, pos: nat)
      requires Ordered(write)
      modifies `readSide, `writeSide, `dispatched, `nrSorted
      ensures View() == FrontMerged(old(View()), write, id, pos)
    {
      var s := if write then writeSide else readSide;
      var t := Drop(s.sort, IndexOf(s.sort, id));
      if IndexOf(s.sort, id) < |s.sort| {
        DropSorted(s.sort, IndexOf(s.sort, id));
      }
      SetSide(write, s.(sort := t));
      AddRqRb(write, Entry(id, pos));
    }

    /** deadline_merged_requests */
    method MergeRequests(write: bool, rq: nat, next: nat)
      modifies `readSide, `writeSide, `nrSorted, `merged
      ensures View() == MergedRequests(old(View()), write, rq, next)
    {
      var s := if write then writeSide else readSide;
      SetSide(write, s.(fifo := Hasten(s.fifo, rq, next)));
      RemoveRequest(write, next);
      nrSorted := nrSorted - 1;
      merged := merged + [next];
    }

    /** The part of deadline_dispatch_requests that starts a batch. */
    method BeginBatch(write: bool)
      requires Of(View(), write).fifo != []
      modifies `readSide, `writeSide, `dispatched, `nrSorted, `batching
      ensures View() == StartBatch(old(View()), write, now)
    {
      var s := if write then writeSide else readSide;
      var rq;
      if now > s.fifo[0].expires || s.next.None? {
        rq := s.fifo[0].id;
      } else {
        rq := s.next.value;
      }
      batching := 0;
      batching := batching + 1;
      MoveRequest(write, rq);
    }

    /** deadline_dispatch_requests */
    method DispatchRequests(time: int) returns (served: Served)
      modifies this
      ensures (View(), served) == Dispatch(c, old(View()), time)
    {
      now := time;
      var hasReads, hasWrites := readSide.fifo != [], writeSide.fifo != [];
      var rq := if writeSide.next.Some? then writeSide.next else readSide.next;
      var write := writeSide.next.Some?;
      if rq.Some? && batching < c.fifoBatch {
        batching := batching + 1;
        MoveRequest(write, rq.value);
        return if write then Write else Read;
      }
      if hasReads {
        if hasWrites {
          if starved >= c.writesStarved {
            starved := 0;
            BeginBatch(true);
            return Write;
          }
          starved := starved + 1;
        }
        BeginBatch(false);
        return Read;
      }
      if hasWrites {
        starved := 0;
        BeginBatch(true);
        return Write;
      }
      return Nothing;
    }

    /** elv_drain_elevator */
    method Drain(time: int)
      requires Inv(View())
      modifies this
      ensures View() == Drained(c, old(View()), time)
    {
      ghost var d := View();
      var more := true;
      while more
        invariant Inv(View())
        invariant if more then Drained(c, View(), time) == Drained(c, d, time) else View() == Drained(c, d, time)
        decreases Waiting(View()), more
      {
        DispatchKeeps(c, View(), time);
        DispatchLogs(c, View(), time);
        var served := DispatchRequests(time);
        more := served != Nothing;
      }
    }
  }
}
