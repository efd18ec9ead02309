/**
 elv_dispatch_sort puts a request into the dispatch queue in the order of a one-way elevator that
 starts at the end of the last request it came to.
 */
module DispatchSort {
  // A request on the dispatch queue covers the sectors from pos to below end; stop is a barrier
  // flag or the mark that the driver has seen it.
  datatype Rq = Rq(id: nat, pos: nat, end: nat, write: bool, discard: bool, stop: bool)

  /** Going backwards from the end of the queue, the search ends at this request. */
  predicate Ends(p: Rq, r: Rq, boundary: nat) {
    || r.discard != p.discard
    || r.write != p.write
    || p.stop
    || (if r.pos >= boundary then p.pos >= boundary && r.pos >= p.pos else p.pos >= boundary || r.pos >= p.pos)
  }

  /** How many requests stay in front of the new one. */
  function Place(s: seq<Rq>, r: Rq, boundary: nat): (n: nat)
    ensures n <= |s|
  {
    if s == [] then 0
    else if Ends(s[|s| - 1], r, boundary) then |s|
    else Place(s[..|s| - 1], r, boundary)
  }

  function Insert(s: seq<Rq>, r: Rq, boundary: nat): seq<Rq> {
    s[..Place(s, r, boundary)] + [r] + s[Place(s, r, boundary)..]
  }

  lemma {:induction false} PlaceEnds(s: seq<Rq>, r: Rq, boundary: nat)
    ensures var n := Place(s, r, boundary);
            && (n > 0 ==> Ends(s[n - 1], r, boundary))
            && forall i :: n <= i < |s| ==> !Ends(s[i], r, boundary)
  {
    if s != [] && !Ends(s[|s| - 1], r, boundary) {
      PlaceEnds(s[..|s| - 1], r, boundary);
    }
  }

  /** No barrier, no request the driver has seen, and none of another kind is overtaken. */
  lemma {:induction false} NeverOvertakes(s: seq<Rq>, r: Rq, boundary: nat)
    ensures forall i :: Place(s, r, boundary) <= i < |s| ==>
              !s[i].stop && s[i].write == r.write && s[i].discard == r.discard
  {
    PlaceEnds(s, r, boundary);
  }

  // ---------- The order of the elevator ----------

  /** In a sweep that starts at the boundary and wraps around, a comes before b. */
  predicate Earlier(a: nat, b: nat, boundary: nat) {
    (a >= boundary && b < boundary) || ((a >= boundary <==> b >= boundary) && a <= b)
  }

  predicate Sweep(s: seq<Rq>, boundary: nat) {
    forall i, j :: 0 <= i < j < |s| ==> Earlier(s[i].pos, s[j].pos, boundary)
  }

  /** Requests without flags, of one kind. */
  predicate Plain(s: seq<Rq>, write: bool) {
    forall i :: 0 <= i < |s| ==> !s[i].stop && !s[i].discard && s[i].write == write && s[i].pos < s[i].end
  }

  predicate Apart(a: Rq, b: Rq) {
    a.end <= b.pos || b.end <= a.pos
  }

  predicate NoOverlap(s: seq<Rq>) {
    forall i, j :: 0 <= i < j < |s| ==> Apart(s[i], s[j])
  }

  /** The sectors go down at most once along the queue: one sweep, then one from the start of the disk. */
  lemma {:induction false} OneDescent(s: seq<Rq>, boundary: nat, i: nat, j: nat)
    requires Sweep(s, boundary) && i < j && j + 1 < |s|
    requires s[i].pos > s[i + 1].pos
    ensures s[j].pos <= s[j + 1].pos
  {
    assert Earlier(s[i].pos, s[i + 1].pos, boundary) && Earlier(s[j].pos, s[j + 1].pos, boundary);
    assert i + 1 < j ==> Earlier(s[i + 1].pos, s[j].pos, boundary);
  }

  /** Among requests of one kind the search ends exactly at the requests that come earlier. */
  lemma {:induction false} EndsIsEarlier(p: Rq, r: Rq, boundary: nat)
    requires !p.stop && p.discard == r.discard && p.write == r.write
    ensures Ends(p, r, boundary) <==> Earlier(p.pos, r.pos, boundary)
  {
  }

  lemma {:induction false} EarlierTransitive(a: nat, b: nat, c: nat, boundary: nat)
    requires Earlier(a, b, boundary) && Earlier(b, c, boundary)
    ensures Earlier(a, c, boundary)
  {
  }

  lemma {:induction false} EarlierTotal(a: nat, b: nat, boundary: nat)
    ensures Earlier(a, b, boundary) || Earlier(b, a, boundary)
  {
  }

  /** What is in front of the new request comes earlier, and what is behind comes later. */
  lemma {:induction false} PlaceSplits(s: seq<Rq>, r: Rq, boundary: nat, i: nat)
    requires Plain(s, r.write) && !r.discard && Sweep(s, boundary) && i < |s|
    ensures i < Place(s, r, boundary) ==> Earlier(s[i].pos, r.pos, boundary)
    ensures i >= Place(s, r, boundary) ==> Earlier(r.pos, s[i].pos, boundary)
  {
    PlaceEnds(s, r, boundary);
    var n := Place(s, r, boundary);
    EndsIsEarlier(s[i], r, boundary);
    EarlierTotal(s[i].pos, r.pos, boundary);
    if i < n {
      EndsIsEarlier(s[n - 1], r, boundary);
      if i < n - 1 {
        EarlierTransitive(s[i].pos, s[n - 1].pos, r.pos, boundary);
      }
    }
  }

  lemma {:induction false} InsertSweeps(s: seq<Rq>, r: Rq, boundary: nat)
    requires Plain(s, r.write) && !r.discard && Sweep(s, boundary)
    ensures Sweep(Insert(s, r, boundary), boundary)
  {
    var n, t := Place(s, r, boundary), Insert(s, r, boundary);
    assert forall i :: 0 <= i < |t| ==> t[i] == (if i < n then s[i] else if i == n then r else s[i - 1]);
    forall i, j | 0 <= i < j < |t|
      ensures Earlier(t[i].pos, t[j].pos, boundary)
    {
      if i == n {
        PlaceSplits(s, r, boundary, j - 1);
      } else if j == n {
        PlaceSplits(s, r, boundary, i);
      }
    }
  }

  /** When the driver comes to the head, the sweep goes on from the end of the head. */
  lemma {:induction false} PeekSweeps(s: seq<Rq>, boundary: nat)
    requires s != [] && Sweep(s, boundary) && NoOverlap(s) && forall i :: 0 <= i < |s| ==> s[i].pos < s[i].end
    ensures Sweep(s[1..], s[0].end)
  {
    forall i, j | 0 <= i < j < |s[1..]|
      ensures Earlier(s[1..][i].pos, s[1..][j].pos, s[0].end)
    {
      assert Earlier(s[i + 1].pos, s[j + 1].pos, boundary);
      assert Earlier(s[0].pos, s[i + 1].pos, boundary) && Apart(s[0], s[i + 1]);
      assert Earlier(s[0].pos, s[j + 1].pos, boundary) && Apart(s[0], s[j + 1]);
    }
  }

  /** The request starts inside the first one. */
  predicate StartsInside(head: Rq, r: Rq) {
    head.pos <= r.pos < head.end
  }

  /** None of the others starts inside the head, or all do. */
  predicate HeadFits(s: seq<Rq>)
    requires s != []
  {
    || (forall i :: 0 < i < |s| ==> !StartsInside(s[0], s[i]))
    || (forall i :: 0 < i < |s| ==> StartsInside(s[0], s[i]))
  }

  /** Overlaps or not, this says whether the sweep goes on. */
  lemma {:induction false} PeekSweepsIsExact(s: seq<Rq>, boundary: nat)
    requires s != [] && Sweep(s, boundary) && s[0].pos < s[0].end
    ensures Sweep(s[1..], s[0].end) <==> HeadFits(s)
  {
    var t := s[1..];
    forall i, j | 0 < i < |s| && 0 < j < |s| && StartsInside(s[0], s[i]) && !StartsInside(s[0], s[j])
      ensures !Sweep(t, s[0].end)
    {
      assert Earlier(s[0].pos, s[i].pos, boundary) && Earlier(s[0].pos, s[j].pos, boundary);
      assert i < j;
      assert Earlier(s[i].pos, s[j].pos, boundary);
      assert !Earlier(t[i - 1].pos, t[j - 1].pos, s[0].end);
    }
    if forall i, j :: 0 < i < |s| && 0 < j < |s| ==> (StartsInside(s[0], s[i]) <==> StartsInside(s[0], s[j])) {
      forall i, j | 0 <= i < j < |t|
        ensures Earlier(t[i].pos, t[j].pos, s[0].end)
      {
        assert Earlier(s[i + 1].pos, s[j + 1].pos, boundary);
        assert Earlier(s[0].pos, s[i + 1].pos, boundary) && Earlier(s[0].pos, s[j + 1].pos, boundary);
        assert StartsInside(s[0], s[i + 1]) <==> StartsInside(s[0], s[j + 1]);
      }
    }
  }

  // ---------- The queue ----------

  // The dispatch queue and end_sector, while no boundary request is set.
  datatype Queue = Queue(rqs: seq<Rq>, boundary: nat)

  /** The requests the driver has not seen. */
  function Unseen(rqs: seq<Rq>): seq<Rq> {
    if rqs != [] && rqs[0].stop then rqs[1..] else rqs
  }

  /** elv_dispatch_sort */
  function Sort(q: Queue, r: Rq): Queue {
    q.(rqs := Insert(q.rqs, r, q.boundary))
  }

  /** The part of blk_peek_request that marks the head and moves end_sector. */
  function Peek(q: Queue): Queue {
    if q.rqs == [] then q else Queue(q.rqs[0 := q.rqs[0].(stop := true)], q.rqs[0].end)
  }

  /** The driver takes the head off the queue. */
  function Take(q: Queue): Queue
    requires q.rqs != []
  {
    q.(rqs := q.rqs[1..])
  }

  datatype Action = SortAction(r: Rq) | PeekAction | TakeAction

  /** Plain requests of one direction are sorted in; only a head that was seen is taken. */
  predicate Enabled(q: Queue, write: bool, a: Action) {
    match a
    case SortAction(r) => !r.stop && !r.discard && r.write == write && r.pos < r.end
    case PeekAction => true
    case TakeAction => q.rqs != [] && q.rqs[0].stop
  }

  function Exec(q: Queue, a: Action): Queue
    requires a.TakeAction? ==> q.rqs != []
  {
    match a
    case SortAction(r) => Sort(q, r)
    case PeekAction => Peek(q)
    case TakeAction => Take(q)
  }

  /** The requests the driver has not seen are in one sweep from end_sector on. */
  predicate Inv(q: Queue, write: bool) {
    && NoOverlap(q.rqs) && Plain(Unseen(q.rqs), write)
    && Sweep(Unseen(q.rqs), q.boundary)
    && (q.rqs != [] && q.rqs[0].stop ==> q.boundary == q.rqs[0].end && q.rqs[0].pos < q.rqs[0].end)
  }

  /** A head that was seen stays in front, and the rest is sorted without it. */
  lemma {:induction false} PlaceBehindHead(h: Rq, s: seq<Rq>, r: Rq, boundary: nat)
    requires h.stop
    ensures Place([h] + s, r, boundary) == Place(s, r, boundary) + 1
  {
    var t := [h] + s;
    if s == [] {
      assert t[|t| - 1] == h;
    } else {
      assert t[|t| - 1] == s[|s| - 1];
      if !Ends(s[|s| - 1], r, boundary) {
        PlaceBehindHead(h, s[..|s| - 1], r, boundary);
        assert t[..|t| - 1] == [h] + s[..|s| - 1];
      }
    }
  }

  lemma {:induction false} InsertUnseen(rqs: seq<Rq>, r: Rq, boundary: nat)
    requires !r.stop
    ensures Unseen(Insert(rqs, r, boundary)) == Insert(Unseen(rqs), r, boundary)
    ensures rqs != [] && rqs[0].stop ==> Insert(rqs, r, boundary)[0] == rqs[0]
    ensures (rqs == [] || !rqs[0].stop) ==> !Insert(rqs, r, boundary)[0].stop
  {
    if rqs != [] && rqs[0].stop {
      assert rqs == [rqs[0]] + rqs[1..];
      PlaceBehindHead(rqs[0], rqs[1..], r, boundary);
      var n := Place(rqs[1..], r, boundary);
      assert rqs[..n + 1][1..] == rqs[1..][..n] && rqs[n + 1..] == rqs[1..][n..];
      assert (rqs[..n + 1] + [r] + rqs[n + 1..])[1..] == rqs[..n + 1][1..] + [r] + rqs[n + 1..];
    }
  }

  lemma {:induction false} InsertApart(rqs: seq<Rq>, r: Rq, boundary: nat)
    requires NoOverlap(rqs) && forall i :: 0 <= i < |rqs| ==> Apart(r, rqs[i])
    ensures NoOverlap(Insert(rqs, r, boundary))
  {
    var n, t := Place(rqs, r, boundary), Insert(rqs, r, boundary);
    assert forall i :: 0 <= i < |t| ==> t[i] == (if i < n then rqs[i] else if i == n then r else rqs[i - 1]);
  }

  lemma {:induction false} InsertPlain(s: seq<Rq>, r: Rq, boundary: nat, write: bool)
    requires Plain(s, write) && Plain([r], write)
    ensures Plain(Insert(s, r, boundary), write)
  {
    assert [r][0] == r;
  }

  lemma {:induction false} SortKeeps(q: Queue, write: bool, r: Rq)
    requires Inv(q, write) && Enabled(q, write, SortAction(r)) && IsApart(q.rqs, SortAction(r))
    ensures Inv(Sort(q, r), write)
  {
    InsertUnseen(q.rqs, r, q.boundary);
    InsertApart(q.rqs, r, q.boundary);
    InsertSweeps(Unseen(q.rqs), r, q.boundary);
    InsertPlain(Unseen(q.rqs), r, q.boundary, write);
  }

  lemma {:induction false} PeekKeeps(q: Queue, write: bool)
    requires Inv(q, write)
    ensures Inv(Peek(q), write)
  {
    if q.rqs != [] {
      var t := q.rqs[0 := q.rqs[0].(stop := true)];
      assert t[1..] == q.rqs[1..];
      if !q.rqs[0].stop {
        PeekSweeps(q.rqs, q.boundary);
      }
    }
  }

  lemma {:induction false} TakeKeeps(q: Queue, write: bool)
    requires Inv(q, write) && q.rqs != [] && q.rqs[0].stop
    ensures Inv(Take(q), write)
  {
  }

  predicate IsRun(q: Queue, write: bool, run: seq<Action>)
    decreases |run|
  {
    run == [] || (Enabled(q, write, run[0]) && IsRun(Exec(q, run[0]), write, run[1..]))
  }

  function After(q: Queue, write: bool, run: seq<Action>): Queue
    requires IsRun(q, write, run)
    decreases |run|
  {
    if run == [] then q else After(Exec(q, run[0]), write, run[1..])
  }

  /** A request that is sorted in does not overlap those on the queue. */
  predicate IsApart(rqs: seq<Rq>, a: Action) {
    a.SortAction? ==> forall i :: 0 <= i < |rqs| ==> Apart(a.r, rqs[i])
  }

  predicate NeverOverlaps(q: Queue, write: bool, run: seq<Action>)
    requires IsRun(q, write, run)
    decreases |run|
  {
    run == [] || (IsApart(q.rqs, run[0]) && NeverOverlaps(Exec(q, run[0]), write, run[1..]))
  }

  /** Over every run without overlaps the requests not seen yet stay in one sweep from the current end_sector. */
  lemma {:induction false} RunSweeps(q: Queue, write: bool, run: seq<Action>)
    requires Inv(q, write) && IsRun(q, write, run) && NeverOverlaps(q, write, run)
    ensures Inv(After(q, write, run), write)
    decreases |run|
  {
    if run != [] {
      match run[0] {
        case SortAction(r) => SortKeeps(q, write, r);
        case PeekAction => PeekKeeps(q, write);
        case TakeAction => TakeKeeps(q, write);
      }
      RunSweeps(Exec(q, run[0]), write, run[1..]);
    }
  }

  /** An empty queue starts in order, whatever end_sector is. */
  lemma {:induction false} AlwaysOneSweep(boundary: nat, write: bool, run: seq<Action>)
    requires IsRun(Queue([], boundary), write, run) && NeverOverlaps(Queue([], boundary), write, run)
    ensures var q := After(Queue([], boundary), write, run); Sweep(Unseen(q.rqs), q.boundary)
  {
    RunSweeps(Queue([], boundary), write, run);
  }

  // ---------- With overlaps ----------

  /** In every state of the run the requests not seen yet are in one sweep. */
  predicate AlwaysSweeps(q: Queue, write: bool, run: seq<Action>)
    requires IsRun(q, write, run)
    decreases |run|
  {
    && Sweep(Unseen(q.rqs), q.boundary)
    && (run == [] || AlwaysSweeps(Exec(q, run[0]), write, run[1..]))
  }

  /** At every peek of the run at a head not seen yet, none of the others starts inside it, or all do. */
  predicate HeadsFit(q: Queue, write: bool, run: seq<Action>)
    requires IsRun(q, write, run)
    decreases |run|
  {
    run == [] ||
    (&& (run[0].PeekAction? && q.rqs != [] && !q.rqs[0].stop ==> HeadFits(q.rqs))
     && HeadsFit(Exec(q, run[0]), write, run[1..]))
  }

  /** What holds without a condition on overlaps. */
  predicate Formed(q: Queue, write: bool) {
    && Plain(Unseen(q.rqs), write)
    && (q.rqs != [] && q.rqs[0].stop ==> q.boundary == q.rqs[0].end)
  }

  lemma {:induction false} ExecForms(q: Queue, write: bool, a: Action)
    requires Formed(q, write) && Enabled(q, write, a)
    ensures Formed(Exec(q, a), write)
  {
    match a
    case SortAction(r) =>
      InsertUnseen(q.rqs, r, q.boundary);
      InsertPlain(Unseen(q.rqs), r, q.boundary, write);
    case PeekAction =>
      if q.rqs != [] {
        assert q.rqs[0 := q.rqs[0].(stop := true)][1..] == q.rqs[1..];
      }
    case TakeAction =>
  }

  lemma {:induction false} ExecSweeps(q: Queue, write: bool, a: Action)
    requires Formed(q, write) && Enabled(q, write, a) && Sweep(Unseen(q.rqs), q.boundary)
    ensures var q' := Exec(q, a);
            Sweep(Unseen(q'.rqs), q'.boundary) <==>
            (a.PeekAction? && q.rqs != [] && !q.rqs[0].stop ==> HeadFits(q.rqs))
  {
    match a
    case SortAction(r) =>
      InsertUnseen(q.rqs, r, q.boundary);
      InsertSweeps(Unseen(q.rqs), r, q.boundary);
    case PeekAction =>
      if q.rqs != [] {
        assert q.rqs[0 := q.rqs[0].(stop := true)][1..] == q.rqs[1..];
        if !q.rqs[0].stop {
          PeekSweepsIsExact(q.rqs, q.boundary);
        }
      }
    case TakeAction =>
  }

  lemma {:induction false} SweepsFrom(q: Queue, write: bool, run: seq<Action>)
    requires IsRun(q, write, run) && Formed(q, write) && Sweep(Unseen(q.rqs), q.boundary)
    ensures AlwaysSweeps(q, write, run) <==> HeadsFit(q, write, run)
    decreases |run|
  {
    if run != [] {
      var q' := Exec(q, run[0]);
      ExecForms(q, write, run[0]);
      ExecSweeps(q, write, run[0]);
      if Sweep(Unseen(q'.rqs), q'.boundary) {
        SweepsFrom(q', write, run[1..]);
      }
    }
  }

  /** Over every run, with any overlaps, every state is one sweep exactly if the heads fit. */
  lemma {:induction false} SweepsIsExact(boundary: nat, write: bool, run: seq<Action>)
    requires IsRun(Queue([], boundary), write, run)
    ensures AlwaysSweeps(Queue([], boundary), write, run) <==> HeadsFit(Queue([], boundary), write, run)
  {
    SweepsFrom(Queue([], boundary), write, run);
  }

  const LONG: Rq := Rq(0, 10, 20, false, false, false)
  const INSIDE: Rq := Rq(1, 15, 16, false, false, false)
  const BEHIND: Rq := Rq(2, 30, 31, false, false, false)

  /** A run in which end_sector passes over a queued request that overlaps the head. */
  lemma {:induction false} OverlapBreaksSweep()
    ensures var run := [SortAction(LONG), SortAction(INSIDE), SortAction(BEHIND), PeekAction];
            && IsRun(Queue([], 0), false, run)
            && var q := After(Queue([], 0), false, run); !Sweep(Unseen(q.rqs), q.boundary)
  {
    var run := [SortAction(LONG), SortAction(INSIDE), SortAction(BEHIND), PeekAction];
    var q1, q2 := Queue([LONG], 0), Queue([LONG, INSIDE], 0);
    var q3 := Queue([LONG, INSIDE, BEHIND], 0);
    assert Sort(Queue([], 0), LONG) == q1;
    assert Sort(q1, INSIDE) == q2;
    assert Sort(q2, BEHIND) == q3;
    var q4 := Peek(q3);
    assert Unseen(q4.rqs) == [INSIDE, BEHIND] && q4.boundary == 20;
    assert !Earlier([INSIDE, BEHIND][0].pos, [INSIDE, BEHIND][1].pos, 20);
    assert run[1..] == [SortAction(INSIDE), SortAction(BEHIND), PeekAction];
    assert run[1..][1..] == [SortAction(BEHIND), PeekAction];
    assert run[1..][1..][1..] == [PeekAction] && run[1..][1..][1..][1..] == [];
    assert IsRun(q3, false, [PeekAction]) && After(q3, false, [PeekAction]) == q4;
    assert IsRun(q2, false, run[1..][1..]) && After(q2, false, run[1..][1..]) == q4;
    assert IsRun(q1, false, run[1..]) && After(q1, false, run[1..]) == q4;
  }

  // ---------- The object ----------

  class DispatchQueue {
    var rqs: seq<Rq>
    var endSector: nat

    function View(): Queue
      reads this
    {
      Queue(rqs, endSector)
    }

    constructor ()
      ensures View() == Queue([], 0)
    {
      rqs, endSector := [], 0;
    }

    /** elv_dispatch_sort: the list is searched from its end. */
    method SortIn(r: Rq)
      modifies `rqs
      ensures View() == Sort(old(View()), r)
    {
      var n := |rqs|;
      assert rqs[..n] == rqs;
      while n > 0
        invariant 0 <= n <= |rqs|
        invariant Place(rqs[..n], r, endSector) == Place(rqs, r, endSector)
      {
        var p := rqs[n - 1];
        if r.discard != p.discard || r.write != p.write || p.stop {
          break;
        }
        if r.pos >= endSector {
          if p.pos >= endSector && r.pos >= p.pos {
            break;
          }
        } else if p.pos >= endSector || r.pos >= p.pos {
          break;
        }
        assert rqs[..n][..n - 1] == rqs[..n - 1];
        n := n - 1;
      }
      rqs := rqs[..n] + [r] + rqs[n..];
    }

    /** The part of blk_peek_request that marks the head and moves end_sector. */
    method PeekHead()
      modifies `rqs, `endSector
      ensures View() == Peek(old(View()))
    {
      if rqs != [] {
        endSector := rqs[0].end;
        rqs := rqs[0 := rqs[0].(stop := true)];
      }
    }

    method TakeHead()
      requires rqs != []
      modifies `rqs
      ensures View() == Take(old(View()))
    {
      rqs := rqs[1..];
    }
  }
}
