/**
 The queue of crypto requests: a list, its length, and a pointer to the first request that was
 accepted although the queue was full.
 */
module CryptoQueue {
  import opened Wrappers

  // The list, the backlog pointer (None is the list head), the counters, and for the statements the
  // requests accepted, taken out, accepted as backlog, and passed by the pointer.
  datatype Queue = Queue(list: seq<nat>, backlog: Option<nat>, qlen: nat, maxQlen: nat,
                         accepted: seq<nat>, taken: seq<nat>, backlogged: seq<nat>, passed: seq<nat>)

  datatype Status = InProgress | Busy

  /** crypto_init_queue */
  function Init(maxQlen: nat): Queue {
    Queue([], None, 0, maxQlen, [], [], [], [])
  }

  function IndexOf(s: seq<nat>, x: nat): (i: nat)
    ensures i <= |s| && (i < |s| ==> s[i] == x) && forall k :: 0 <= k < i ==> s[k] != x
  {
    if s == [] || s[0] == x then 0 else 1 + IndexOf(s[1..], x)
  }

  /** The node after this one; None is the list head. */
  function Next(s: seq<nat>, x: nat): Option<nat> {
    var i := IndexOf(s, x);
    if i + 1 < |s| then Some(s[i + 1]) else None
  }

  /** crypto_enqueue_request */
  function Enqueue(q: Queue, rq: nat, mayBacklog: bool): (Queue, Status) {
    var full := q.qlen >= q.maxQlen;
    if full && !mayBacklog then (q, Busy)
    else
      (q.(list := q.list + [rq], qlen := q.qlen + 1, accepted := q.accepted + [rq],
          backlog := if full && q.backlog.None? then Some(rq) else q.backlog,
          backlogged := if full then q.backlogged + [rq] else q.backlogged),
       if full then Busy else InProgress)
  }

  /** __crypto_dequeue_request */
  function Dequeue(q: Queue): (Queue, Option<nat>) {
    if q.qlen == 0 || q.list == [] then (q, None)
    else
      (q.(list := q.list[1..], qlen := q.qlen - 1, taken := q.taken + [q.list[0]],
          backlog := if q.backlog.Some? then Next(q.list, q.backlog.value) else None,
          passed := if q.backlog.Some? then q.passed + [q.backlog.value] else q.passed),
       Some(q.list[0]))
  }

  /** The pointer is at the node at position max_qlen, and the requests from there on are the backlog. */
  predicate Inv(q: Queue) {
    && q.qlen == |q.list| && Distinct(q.list)
    && q.backlog == (if |q.list| > q.maxQlen then Some(q.list[q.maxQlen]) else None)
    && q.taken + q.list == q.accepted
    && q.passed + Behind(q.list, q.maxQlen) == q.backlogged
  }

  lemma {:induction false} EnqueueKeeps(q: Queue, rq: nat, mayBacklog: bool)
    requires Inv(q) && rq !in q.list
    ensures Inv(Enqueue(q, rq, mayBacklog).0)
  {
    var q' := Enqueue(q, rq, mayBacklog).0;
    if q' != q {
      assert q'.taken + q'.list == (q.taken + q.list) + [rq];
      if |q.list| >= q.maxQlen {
        var rest := Behind(q.list, q.maxQlen);
        assert q'.list[q.maxQlen..] == rest + [rq];
        assert q.passed + (rest + [rq]) == (q.passed + rest) + [rq];
      }
    }
  }

  lemma {:induction false} DistinctIndex(s: seq<nat>, i: nat)
    requires Distinct(s) && i < |s|
    ensures IndexOf(s, s[i]) == i
  {
    var j := IndexOf(s, s[i]);
    assert j <= i ==> s[j] == s[i];
  }

  /** The requests from the pointer on, without the list head. */
  function Behind(list: seq<nat>, maxQlen: nat): seq<nat> {
    if |list| > maxQlen then list[maxQlen..] else []
  }

  lemma {:induction false} BehindMoves(list: seq<nat>, maxQlen: nat)
    requires |list| > maxQlen
    ensures Behind(list, maxQlen) == [list[maxQlen]] + Behind(list[1..], maxQlen)
  {
    if |list| > maxQlen + 1 {
      assert list[1..][maxQlen..] == list[maxQlen + 1..];
    }
  }

  lemma {:induction false} NextIs(list: seq<nat>, i: nat)
    requires Distinct(list) && i < |list|
    ensures Next(list, list[i]) == if i + 1 < |list| then Some(list[i + 1]) else None
  {
    DistinctIndex(list, i);
  }

  lemma {:induction false} DequeueKeeps(q: Queue)
    requires Inv(q)
    ensures Inv(Dequeue(q).0)
    ensures Dequeue(q).1 == if q.list == [] then None else Some(q.list[0])
  {
    if q.list != [] {
      Passes(q.taken, q.list[0], q.list[1..]);
      assert [q.list[0]] + q.list[1..] == q.list;
      DistinctTail(q.list);
      if |q.list| > q.maxQlen {
        PointerMoves(q);
      }
    }
  }

  lemma {:induction false} DistinctTail(s: seq<nat>)
    requires s != [] && Distinct(s)
    ensures Distinct(s[1..])
  {
  }

  /** The pointer passes the request it was at. */
  lemma {:induction false} PointerMoves(q: Queue)
    requires Inv(q) && |q.list| > q.maxQlen
    ensures var q' := Dequeue(q).0;
            && q'.backlog == (if |q'.list| > q.maxQlen then Some(q'.list[q.maxQlen]) else None)
            && q'.passed + Behind(q'.list, q.maxQlen) == q'.backlogged
  {
    NextIs(q.list, q.maxQlen);
    BehindMoves(q.list, q.maxQlen);
    Passes(q.passed, q.list[q.maxQlen], Behind(q.list[1..], q.maxQlen));
  }

  lemma {:induction false} Passes(passed: seq<nat>, x: nat, rest: seq<nat>)
    ensures (passed + [x]) + rest == passed + ([x] + rest)
  {
  }

  // ---------- Every run ----------

  datatype Action = EnqueueAction(rq: nat, mayBacklog: bool) | DequeueAction

  /** A request on the list is not put on it again. */
  predicate Enabled(q: Queue, a: Action) {
    a.EnqueueAction? ==> a.rq !in q.list
  }

  function Exec(q: Queue, a: Action): Queue {
    match a
    case EnqueueAction(rq, mayBacklog) => Enqueue(q, rq, mayBacklog).0
    case DequeueAction => Dequeue(q).0
  }

  predicate IsRun(q: Queue, run: seq<Action>)
    decreases |run|
  {
    run == [] || (Enabled(q, run[0]) && IsRun(Exec(q, run[0]), run[1..]))
  }

  function After(q: Queue, run: seq<Action>): Queue
    decreases |run|
  {
    if run == [] then q else After(Exec(q, run[0]), run[1..])
  }

  lemma {:induction false} RunKeeps(q: Queue, run: seq<Action>)
    requires Inv(q) && IsRun(q, run)
    ensures Inv(After(q, run)) && After(q, run).maxQlen == q.maxQlen
    decreases |run|
  {
    if run != [] {
      match run[0] {
        case EnqueueAction(rq, mayBacklog) => EnqueueKeeps(q, rq, mayBacklog);
        case DequeueAction => DequeueKeeps(q);
      }
      RunKeeps(Exec(q, run[0]), run[1..]);
    }
  }

  /** Requests leave in the order they came, and qlen is the length of the list. */
  lemma {:induction false} FirstInFirstOut(maxQlen: nat, run: seq<Action>)
    requires IsRun(Init(maxQlen), run)
    ensures var q := After(Init(maxQlen), run); q.qlen == |q.list| && q.taken + q.list == q.accepted
  {
    RunKeeps(Init(maxQlen), run);
  }

  /** The backlog pointer is at position max_qlen, and has passed each backlogged request once, in order. */
  lemma {:induction false} BacklogInOrder(maxQlen: nat, run: seq<Action>)
    requires IsRun(Init(maxQlen), run)
    ensures var q := After(Init(maxQlen), run);
            && q.backlog == (if |q.list| > maxQlen then Some(q.list[maxQlen]) else None)
            && q.passed <= q.backlogged
            && q.backlogged[|q.passed|..] == (if |q.list| > maxQlen then q.list[maxQlen..] else [])
  {
    RunKeeps(Init(maxQlen), run);
  }

  // ---------- The object ----------

  class RequestQueue {
    var list: seq<nat>
    var backlog: Option<nat>
    var qlen: nat
    const maxQlen: nat
    var accepted: seq<nat>
    var taken: seq<nat>
    var backlogged: seq<nat>
    var passed: seq<nat>

    function View(): Queue
      reads this
    {
      Queue(list, backlog, qlen, maxQlen, accepted, taken, backlogged, passed)
    }

    constructor (maxQlen: nat)
      ensures View() == Init(maxQlen)
    {
      list, backlog, qlen := [], None, 0;
      this.maxQlen := maxQlen;
      accepted, taken, backlogged, passed := [], [], [], [];
    }

    /** crypto_enqueue_request */
    method Put(rq: nat, mayBacklog: bool) returns (status: Status)
      modifies this
      ensures (View(), status) == Enqueue(old(View()), rq, mayBacklog)
    {
      status := InProgress;
      if qlen >= maxQlen {
        status := Busy;
        if !mayBacklog {
          return;
        }
        if backlog.None? {
          backlog := Some(rq);
        }
        backlogged := backlogged + [rq];
      }
      qlen := qlen + 1;
      list := list + [rq];
      accepted := accepted + [rq];
    }

    /** __crypto_dequeue_request */
    method Take() returns (rq: Option<nat>)
      requires qlen == |list|
      modifies this
      ensures (View(), rq) == Dequeue(old(View()))
    {
      if qlen == 0 {
        return None;
      }
      qlen := qlen - 1;
      if backlog.Some? {
        passed := passed + [backlog.value];
        backlog := Next(list, backlog.value);
      }
      rq := Some(list[0]);
      taken := taken + [list[0]];
      list := list[1..];
    }
  }
}
