/**
 The request queue as an object whose fields the operations change in place.  Each method
 is proved equal to the function of BarrierModel that specifies it, so that every guarantee
 of BarrierTheorems is one about these methods.
 */
module RequestQueues {
  import opened Wrappers
  import opened BarrierModel

  // ---------- What the loop that looks for the next request computes ----------

  lemma {:induction false} GoneShrinks(q: Queue)
    requires q.head != [] && DoOrdered(q).1 == Gone
    ensures |DoOrdered(q).0.head| < |q.head|
  {
    if q.next.Some? {
      var m := Masked(q.next.value, q.head[0].empty);
      assert FirstClear({Started} + Skipped(m, BeginOrdered(q, q.next.value).inFlight == 0)) == Done;
      assert Proxies(m) == [];
    }
  }

  lemma {:induction false} IssueHasFront(q: Queue)
    requires q.head != [] && DoOrdered(q).1 == Issue
    ensures DoOrdered(q).0.head != []
  {
    if q.ordseq == {} && q.head[0].IsBarrier() {
      var m := Masked(q.next.value, q.head[0].empty);
      assert Proxies(m) == [] ==> FirstClear({Started} + Skipped(m, true)) == Done;
    }
  }

  /** __elv_next_request; the plan says what the scheduler hands over when it is asked. */
  function NextRequest(q: Queue, plan: seq<Dispatch>): (r: (Queue, Option<Request>))
    ensures r.1.Some? ==> r.0.head != [] && r.1.value == r.0.head[0]
    decreases |plan|, |q.head|
  {
    if q.head != [] then
      var (q', v) := DoOrdered(q);
      if v == Gone then
        GoneShrinks(q);
        NextRequest(q', plan)
      else if v == Issue then
        IssueHasFront(q);
        (q', Some(q'.head[0]))
      else (q', None)
    else if plan != [] && CanDispatch(q, plan[0]) then
      NextRequest(DispatchOne(q, plan[0]), plan[1..])
    else (q, None)
  }

  /** blk_peek_request marks what it returns. */
  function PeekRequest(q: Queue, plan: seq<Dispatch>): Queue {
    var (q', r) := NextRequest(q, plan);
    if r.Some? then q'.(head := [q'.head[0].(started := true)] + q'.head[1..]) else q'
  }

  /** Peeking is a run of the protocol, so it keeps everything that runs keep. */
  lemma {:induction false} PeekRequestIsRun(q: Queue, plan: seq<Dispatch>) returns (run: seq<Action>)
    ensures IsRun(q, run) && forall a :: a in run ==> Disciplined(a)
    ensures After(q, run) == PeekRequest(q, plan)
    decreases |plan|, |q.head|
  {
    if q.head != [] {
      var (q', v) := DoOrdered(q);
      if v == Gone {
        GoneShrinks(q);
        assert Peek(q) == q';
        var rest := PeekRequestIsRun(q', plan);
        run := [PeekAction] + rest;
        assert run[1..] == rest;
      } else {
        if v == Issue {
          IssueHasFront(q);
        }
        run := [PeekAction];
        assert run[1..] == [];
      }
    } else if plan != [] && CanDispatch(q, plan[0]) {
      var rest := PeekRequestIsRun(DispatchOne(q, plan[0]), plan[1..]);
      run := [DispatchAction(plan[0])] + rest;
      assert run[1..] == rest;
    } else {
      run := [];
    }
  }

  // ---------- The object ----------

  class RequestQueue {
    var head: seq<Request>
    var sorted: seq<Request>
    var driver: seq<Request>
    var inFlight: int
    var ordseq: set<Stage>
    var orderr: int
    var ordered: Ordered
    var next: Option<Ordered>
    var origBar: Request
    var ordcolor: bool
    var bug: bool
    var warn: bool
    var added: seq<Request>
    var barriers: seq<nat>
    var completed: set<nat>
    var ends: seq<Ended>
    var reports: seq<int>

    function View(): Queue
      reads this
    {
      Queue(head, sorted, driver, inFlight, ordseq, orderr, ordered, next, origBar, ordcolor,
            bug, warn, added, barriers, completed, ends, reports)
    }

    constructor (mode: Option<Ordered>)
      ensures View() == InitialQueue(mode)
    {
      head, sorted, driver, inFlight := [], [], [], 0;
      ordseq, orderr, ordered, next := {}, 0, Ordered(false, false, false), mode;
      origBar := Request(Special, false, false, false, false, false, 0, 0);
      ordcolor, bug, warn := false, false, false;
      added, barriers, completed, ends, reports := [], [], {}, [], [];
    }

    /** blk_ordered_complete_seq */
    method CompleteStages(stages: set<Stage>, error: int) returns (over: bool)
      modifies this
      ensures View() == CompleteSeq(old(View()), stages, error)
      ensures over <==> View().ordseq == {}
    {
      reports := reports + [error];
      if error != 0 && orderr == 0 {
        orderr := error;
      }
      if !(ordseq !! stages) {
        bug := true;
      }
      ordseq := ordseq + stages;
      if FirstClear(ordseq) != Done {
        return ordseq == {};
      }
      EndBarrier();
      return true;
    }

    /** The part of req_bio_endio that is for bar_rq. */
    method CompletePart(error: int)
      modifies `orderr, `reports
      ensures View() == RecordError(old(View()), error)
    {
      reports := reports + [error];
      if error != 0 && orderr == 0 {
        orderr := error;
      }
    }

    /** The end of the original barrier */
    method EndBarrier()
      modifies this
      ensures View() == EndOrig(old(View()))
    {
      ordseq := {};
      completed := completed + {origBar.id};
      ends := ends + [Ended(origBar.id, orderr, reports)];
      if origBar.Accounted() {
        inFlight := inFlight - 1;
      }
    }

    /** queue_flush, and the BAR proxy: stacked at the front, so queued in reverse order. */
    method StackProxy(kind: Kind)
      modifies `head
      ensures head == [Proxy(kind)] + old(head)
    {
      head := [Proxy(kind)] + head;
    }

    /** The part of start_ordered that queues the proxies and notes the stages without one. */
    method StackProxies() returns (skip: set<Stage>)
      modifies `head
      ensures head == Proxies(ordered) + old(head)
      ensures skip == Skipped(ordered, false)
    {
      skip := {};
      if ordered.postflush {
        StackProxy(PostFlushRq);
      } else {
        skip := skip + {PostFlush};
      }
      if ordered.bar {
        StackProxy(BarRq);
      } else {
        skip := skip + {Bar};
      }
      if ordered.preflush {
        StackProxy(PreFlushRq);
      } else {
        skip := skip + {PreFlush};
      }
    }

    /** The part of start_ordered before the proxies: the barrier leaves the queue. */
    method TakeBarrier(o: Ordered) returns (rq: Request)
      requires head != []
      modifies `orderr, `reports, `ordered, `ordseq, `head, `inFlight, `origBar
      ensures rq == old(head[0]) == origBar && head == old(head)[1..]
      ensures orderr == 0 && reports == [] && ordered == Masked(o, rq.empty)
      ensures ordseq == old(ordseq) + {Started}
      ensures inFlight == old(inFlight) + (if rq.Accounted() then 1 else 0)
    {
      rq := head[0];
      orderr, reports := 0, [];
      ordered := o;
      ordseq := ordseq + {Started};
      if rq.empty {
        ordered := Ordered(o.preflush, false, false);
      }
      head := head[1..];
      if rq.Accounted() {
        inFlight := inFlight + 1;
      }
      origBar := rq;
    }

    /** The part of start_ordered that takes the barrier out and queues the proxies in its place. */
    method BeginSequence(o: Ordered) returns (skip: set<Stage>)
      requires head != []
      modifies this
      ensures View() == BeginOrdered(old(View()), o)
      ensures skip == Skipped(ordered, false)
    {
      var rq := TakeBarrier(o);
      skip := StackProxies();
    }

    /** start_ordered; true unless the whole sequence was skipped. */
    method StartSequence(o: Ordered) returns (going: bool, hold: bool)
      requires head != []
      modifies this
      ensures View() == StartOrdered(old(View()), o)
      ensures going <==> View().ordseq != {}
      ensures hold <==> BeginOrdered(old(View()), o).inFlight != 0
    {
      var skip := BeginSequence(o);
      hold := inFlight != 0;
      if !hold {
        skip := skip + {Drain};
      }
      assert skip == Skipped(ordered, inFlight == 0);
      var over := CompleteStages(skip, 0);
      going := !over;
    }

    /** blk_do_ordered */
    method Consult() returns (v: Verdict)
      requires head != []
      modifies this
      ensures (View(), v) == DoOrdered(old(View()))
    {
      var rq := head[0];
      if ordseq == {} {
        if !rq.IsBarrier() {
          return Issue;
        }
        if next.Some? {
          var going, hold := StartSequence(next.value);
          return if !going then Gone else if hold then Hold else Issue;
        }
        head := head[1..];
        completed := completed + {rq.id};
        ends := ends + [Ended(rq.id, EOPNOTSUPP, [EOPNOTSUPP])];
        return Gone;
      }
      if rq.kind == Special {
        return Issue;
      }
      if SeqRank(View(), rq) < CurRank(ordseq) {
        warn := true;
      }
      return if SeqRank(View(), rq) > CurRank(ordseq) then Hold else Issue;
    }

    /** The scheduler hands over one request. */
    method DispatchNext(d: Dispatch)
      requires CanDispatch(View(), d)
      modifies `head, `sorted
      ensures View() == DispatchOne(old(View()), d)
    {
      var rq := sorted[d.k];
      sorted := Remove(sorted, d.k);
      head := InsertAt(head, d.pos, rq);
    }

    /** __elv_next_request */
    method FindNext(plan: seq<Dispatch>) returns (rq: Option<Request>)
      modifies this
      ensures (View(), rq) == NextRequest(old(View()), plan)
    {
      var i := 0;
      while true
        invariant 0 <= i <= |plan|
        invariant NextRequest(View(), plan[i..]) == NextRequest(old(View()), plan)
        decreases |plan| - i
      {
        while head != []
          invariant NextRequest(View(), plan[i..]) == NextRequest(old(View()), plan)
          decreases |head|
        {
          ghost var q := View();
          var v := Consult();
          if v == Issue {
            IssueHasFront(q);
            return Some(head[0]);
          }
          if v == Hold {
            return None;
          }
          GoneShrinks(q);
        }
        if i == |plan| || !CanDispatch(View(), plan[i]) {
          return None;
        }
        DispatchNext(plan[i]);
        assert plan[i..][1..] == plan[i + 1..];
        i := i + 1;
      }
    }

    /** blk_peek_request */
    method PeekFront(plan: seq<Dispatch>) returns (rq: Option<Request>)
      modifies this
      ensures View() == PeekRequest(old(View()), plan)
      ensures rq == NextRequest(old(View()), plan).1
    {
      rq := FindNext(plan);
      if rq.Some? {
        head := [head[0].(started := true)] + head[1..];
      }
    }

    /** blk_start_request */
    method StartRequest(i: nat)
      requires i < |head|
      modifies this
      ensures View() == Start(old(View()), i)
    {
      var rq := head[i];
      head := Remove(head, i);
      if rq.Accounted() {
        inFlight := inFlight + 1;
      }
      driver := driver + [rq];
    }

    /** elv_completed_request */
    method CompletedByElevator(rq: Request)
      modifies this
      ensures View() == ElvCompleted(old(View()), rq)
    {
      if rq.Accounted() {
        inFlight := inFlight - 1;
      }
      if ordseq != {} {
        if inFlight == 0 && CurRank(ordseq) == Rank(Drain)
           && (head == [] || SeqRank(View(), head[0]) > Rank(Drain)) {
          var over := CompleteStages({Drain}, 0);
        }
      }
    }

    /** __blk_put_request, pre_flush_end_io, bar_end_io, post_flush_end_io */
    method CompleteRequest(i: nat, error: int)
      requires i < |driver|
      modifies this
      ensures View() == Complete(old(View()), i, error)
    {
      var rq := driver[i];
      driver := Remove(driver, i);
      if rq.kind == Fs {
        completed := completed + {rq.id};
      }
      CompletedByElevator(rq);
      if rq.IsProxy() {
        var over := CompleteStages({ProxyStage(rq.kind)}, error);
      }
    }

    /** The part of elv_requeue_request that takes the request back from the driver. */
    method TakeBack(i: nat) returns (rq: Request)
      requires i < |driver|
      modifies `driver, `inFlight
      ensures rq == old(driver[i]).(started := false, soft := true)
      ensures driver == Remove(old(driver), i)
      ensures inFlight == old(inFlight) - (if old(driver[i]).Accounted() then 1 else 0)
    {
      rq := driver[i];
      driver := Remove(driver, i);
      if rq.Accounted() {
        inFlight := inFlight - 1;
      }
      rq := rq.(started := false, soft := true);
    }

    /** elv_requeue_request and the requeue branch of elv_insert */
    method RequeueRequest(i: nat)
      requires i < |driver|
      modifies this
      ensures View() == Requeue(old(View()), i)
    {
      var rq := TakeBack(i);
      var pos := 0;
      if ordseq != {} {
        pos := RequeueSpot(SeqRank(View(), rq));
      }
      head := InsertAt(head, pos, rq);
    }

    /** The walk of elv_insert to the first request whose stage is not below the rank. */
    method RequeueSpot(rank: nat) returns (pos: nat)
      ensures pos == RequeuePos(View(), head, rank)
    {
      pos := 0;
      while pos < |head| && !(rank <= SeqRank(View(), head[pos]))
        invariant pos <= |head|
        invariant pos + RequeuePos(View(), head[pos..], rank) == RequeuePos(View(), head, rank)
      {
        assert head[pos..][1..] == head[pos + 1..];
        pos := pos + 1;
      }
    }

    /** elv_drain_elevator */
    method DrainScheduler(plan: seq<Dispatch>)
      requires CanDispatchAll(View(), plan)
      modifies `head, `sorted
      ensures View() == DispatchAll(old(View()), plan)
    {
      var i := 0;
      while i < |plan|
        invariant 0 <= i <= |plan|
        invariant CanDispatchAll(View(), plan[i..])
        invariant DispatchAll(View(), plan[i..]) == DispatchAll(old(View()), plan)
      {
        assert plan[i..][1..] == plan[i + 1..];
        DispatchNext(plan[i]);
        i := i + 1;
      }
    }

    /** elv_insert for new requests */
    method InsertRequest(rq: Request, place: Where, plan: seq<Dispatch>)
      requires CanInsert(View(), place, plan)
      modifies this
      ensures View() == Insert(old(View()), rq, place, plan)
    {
      match place
      case Front =>
        head := [rq.(soft := true)] + head;
      case Back =>
        DrainScheduler(plan);
        head := head + [rq.(soft := true)];
      case Sort =>
        if !rq.IsFs() {
          bug := true;
        }
        sorted := sorted + [rq];
    }

    /** __elv_add_request */
    method AddRequest(s: Submission, place: Where, plan: seq<Dispatch>)
      requires CanInsert(Register(View(), s), Placement(s, place), plan)
      modifies this
      ensures View() == Add(old(View()), s, place, plan)
    {
      var rq := NewRequest(View(), s);
      var spot := place;
      if s.fs {
        if s.hard {
          barriers := barriers + [|added|];
        }
        added := added + [rq];
      }
      if s.soft || s.hard {
        if s.hard {
          ordcolor := !ordcolor;
        }
        if spot == Sort {
          spot := Back;
        }
      } else if !s.priv && spot == Sort {
        spot := Back;
      }
      InsertRequest(rq, spot, plan);
    }
  }
}
