/**
 The ordered-write ("barrier") protocol of the request queue, in the modes that
 order by draining.  Every operation of the queue is a function from queue states
 to queue states; RequestQueue.dfy holds the same operations as methods that change
 a queue in place, proved equal to these functions.

 The source keeps ordseq as a bit mask.  Here it is the set of stages whose bit is
 set, and the lowest clear bit is the least stage outside the set.

 BUG_ON and WARN_ON are not preconditions: reaching one sets `bug` or `warn`.
 */
module BarrierModel {
  import opened Wrappers

  // ---------- Stages ----------

  datatype Stage = Started | Drain | PreFlush | Bar | PostFlush | Done

  function Rank(s: Stage): nat {
    match s
    case Started => 1
    case Drain => 2
    case PreFlush => 3
    case Bar => 4
    case PostFlush => 5
    case Done => 6
  }

  /** The stage of the lowest clear bit. */
  function FirstClear(ordseq: set<Stage>): Stage {
    if Started !in ordseq then Started
    else if Drain !in ordseq then Drain
    else if PreFlush !in ordseq then PreFlush
    else if Bar !in ordseq then Bar
    else if PostFlush !in ordseq then PostFlush
    else Done
  }

  /** blk_ordered_cur_seq: 0 when no sequence is in progress. */
  function CurRank(ordseq: set<Stage>): nat {
    if ordseq == {} then 0 else Rank(FirstClear(ordseq))
  }

  // ---------- Requests and queues ----------

  // PreFlushRq, BarRq and PostFlushRq are the three proxy requests embedded in the queue.
  datatype Kind = Fs | Special | PreFlushRq | BarRq | PostFlushRq

  // `id` and `epoch` are history: the position of the request in the order of
  // additions, and the number of barriers added before it.
  datatype Request = Request(
    kind: Kind,
    hard: bool,
    soft: bool,
    color: bool,
    started: bool,
    empty: bool,
    id: nat,
    epoch: nat)
  {
    predicate IsFs() {
      kind == Fs || kind == BarRq
    }

    predicate IsProxy() {
      kind == PreFlushRq || kind == BarRq || kind == PostFlushRq
    }

    predicate IsBarrier() {
      IsFs() && hard
    }

    // blk_account_rq
    predicate Accounted() {
      started && IsFs()
    }

    // The flags at which elv_dispatch_sort stops.
    predicate Stops() {
      soft || hard || started
    }
  }

  function ProxyStage(k: Kind): Stage
    requires k == PreFlushRq || k == BarRq || k == PostFlushRq
  {
    if k == PreFlushRq then PreFlush else if k == BarRq then Bar else PostFlush
  }

  // Which proxies a sequence runs: QUEUE_ORDERED_DO_{PREFLUSH,BAR,POSTFLUSH}.
  datatype Ordered = Ordered(preflush: bool, bar: bool, postflush: bool)

  // A barrier that has ended, the error it got, and the errors its sequence was told of.
  datatype Ended = Ended(id: nat, error: int, reports: seq<int>)

  datatype Queue = Queue(
    head: seq<Request>,        // queue_head
    sorted: seq<Request>,      // held by the I/O scheduler
    driver: seq<Request>,      // handed to the driver and not yet completed
    inFlight: int,             // in_flight[0] + in_flight[1]
    ordseq: set<Stage>,
    orderr: int,
    ordered: Ordered,
    next: Option<Ordered>,     // next_ordered; None is QUEUE_ORDERED_NONE
    origBar: Request,          // orig_bar_rq, meaningful while ordseq is not empty
    ordcolor: bool,
    bug: bool,
    warn: bool,
    // history
    added: seq<Request>,       // every fs request, in the order of additions
    barriers: seq<nat>,        // the ids of the barriers among them
    completed: set<nat>,       // ids of the fs requests that have ended
    ends: seq<Ended>,          // the barriers that have ended, with the error each got
    reports: seq<int>)         // errors reported to the sequence in progress

  function InitialQueue(mode: Option<Ordered>): Queue {
    Queue([], [], [], 0, {}, 0, Ordered(false, false, false), mode,
          Request(Special, false, false, false, false, false, 0, 0),
          false, false, false, [], [], {}, [], [])
  }

  // ---------- Classification ----------

  /** blk_ordered_req_seq */
  function ReqSeq(q: Queue, r: Request): Stage {
    if r.IsProxy() then ProxyStage(r.kind)
    else if r.kind == Special then Drain
    else if r.color == q.origBar.color then Drain
    else Done
  }

  function SeqRank(q: Queue, r: Request): nat {
    Rank(ReqSeq(q, r))
  }

  // ---------- Completing stages ----------

  /** Ending the original barrier: __blk_end_request_all(orig_bar_rq, orderr). */
  function EndOrig(q: Queue): Queue {
    q.(ordseq := {},
       completed := q.completed + {q.origBar.id},
       ends := q.ends + [Ended(q.origBar.id, q.orderr, q.reports)],
       inFlight := if q.origBar.Accounted() then q.inFlight - 1 else q.inFlight)
  }

  /** An error of the sequence: of a stage that ends, or of a part of bar_rq. */
  function RecordError(q: Queue, error: int): Queue {
    q.(orderr := if error != 0 && q.orderr == 0 then error else q.orderr,
       reports := q.reports + [error])
  }

  /** blk_ordered_complete_seq; the sequence has ended when ordseq comes back empty. */
  function CompleteSeq(q: Queue, stages: set<Stage>, error: int): Queue {
    var q1 := RecordError(q, error);
    var q2 := q1.(bug := q1.bug || !(q1.ordseq !! stages), ordseq := q1.ordseq + stages);
    if FirstClear(q2.ordseq) != Done then q2 else EndOrig(q2)
  }

  // ---------- Starting a sequence ----------

  function Proxy(kind: Kind): Request {
    Request(kind, true, true, false, false, false, 0, 0)
  }

  function Proxies(o: Ordered): seq<Request> {
    (if o.preflush then [Proxy(PreFlushRq)] else [])
    + (if o.bar then [Proxy(BarRq)] else [])
    + (if o.postflush then [Proxy(PostFlushRq)] else [])
  }

  /** An empty barrier has no BAR request and so needs no POSTFLUSH. */
  function Masked(o: Ordered, empty: bool): Ordered {
    if empty then Ordered(o.preflush, false, false) else o
  }

  function Skipped(o: Ordered, drained: bool): set<Stage> {
    (if o.postflush then {} else {PostFlush})
    + (if o.bar then {} else {Bar})
    + (if o.preflush then {} else {PreFlush})
    + (if drained then {Drain} else {})
  }

  /** start_ordered up to the stages it skips. */
  function BeginOrdered(q: Queue, o: Ordered): Queue
    requires q.head != []
  {
    var rq := q.head[0];
    var m := Masked(o, rq.empty);
    q.(orderr := 0,
       reports := [],
       ordered := m,
       ordseq := q.ordseq + {Started},
       inFlight := if rq.Accounted() then q.inFlight + 1 else q.inFlight,
       origBar := rq,
       head := Proxies(m) + q.head[1..])
  }

  /** start_ordered */
  function StartOrdered(q: Queue, o: Ordered): Queue
    requires q.head != []
  {
    var q1 := BeginOrdered(q, o);
    CompleteSeq(q1, Skipped(q1.ordered, q1.inFlight == 0), 0)
  }

  // What blk_do_ordered leaves in *rqp and returns: the head may go to the driver,
  // nothing may, or the head is gone and the caller looks again.
  datatype Verdict = Issue | Hold | Gone

  /** The end of a barrier on a queue that supports none. */
  function Reject(q: Queue): Queue
    requires q.head != []
  {
    var rq := q.head[0];
    q.(head := q.head[1..],
       completed := q.completed + {rq.id},
       ends := q.ends + [Ended(rq.id, EOPNOTSUPP, [EOPNOTSUPP])])
  }

  const EOPNOTSUPP: int := -95

  /** blk_do_ordered */
  function DoOrdered(q: Queue): (Queue, Verdict)
    requires q.head != []
  {
    var rq := q.head[0];
    if q.ordseq == {} then
      if !rq.IsBarrier() then (q, Issue)
      else if q.next.Some? then
        var m := Masked(q.next.value, rq.empty);
        var q1 := BeginOrdered(q, q.next.value);
        var q' := StartOrdered(q, q.next.value);
        (q', if q'.ordseq == {} then Gone
             else if q1.inFlight != 0 then Hold
             else Issue)
      else (Reject(q), Gone)
    else if rq.kind == Special then (q, Issue)
    else
      (q.(warn := q.warn || SeqRank(q, rq) < CurRank(q.ordseq)),
       if SeqRank(q, rq) > CurRank(q.ordseq) then Hold else Issue)
  }

  // ---------- What the driver does ----------

  /** One turn of blk_peek_request: a head that may go out is marked started. */
  function Peek(q: Queue): Queue {
    if q.head == [] then q
    else
      var (q', v) := DoOrdered(q);
      if v == Issue && q'.head != [] then
        q'.(head := [q'.head[0].(started := true)] + q'.head[1..])
      else q'
  }

  /** blk_start_request on a request that a peek has returned. */
  function Start(q: Queue, i: nat): Queue
    requires i < |q.head|
  {
    var r := q.head[i];
    q.(head := Remove(q.head, i),
       driver := q.driver + [r],
       inFlight := if r.Accounted() then q.inFlight + 1 else q.inFlight)
  }

  predicate DrainIsOver(q: Queue) {
    && q.inFlight == 0
    && CurRank(q.ordseq) == Rank(Drain)
    && (q.head == [] || SeqRank(q, q.head[0]) > Rank(Drain))
  }

  /** elv_completed_request */
  function ElvCompleted(q: Queue, r: Request): Queue {
    var q1 := q.(inFlight := if r.Accounted() then q.inFlight - 1 else q.inFlight);
    if q1.ordseq != {} && DrainIsOver(q1) then CompleteSeq(q1, {Drain}, 0) else q1
  }

  /** The end of a request: __blk_put_request, or the end_io of a proxy. */
  function Complete(q: Queue, i: nat, error: int): Queue
    requires i < |q.driver|
  {
    var r := q.driver[i];
    var q1 := q.(driver := Remove(q.driver, i),
                 completed := if r.kind == Fs then q.completed + {r.id} else q.completed);
    var q2 := ElvCompleted(q1, r);
    if r.IsProxy() then CompleteSeq(q2, {ProxyStage(r.kind)}, error) else q2
  }

  /** The first place in the list whose stage is not below `rank`. */
  function RequeuePos(q: Queue, list: seq<Request>, rank: nat): (p: nat)
    ensures p <= |list|
    ensures forall i :: 0 <= i < p ==> SeqRank(q, list[i]) < rank
    ensures p < |list| ==> rank <= SeqRank(q, list[p])
  {
    if list == [] || rank <= SeqRank(q, list[0]) then 0
    else 1 + RequeuePos(q, list[1..], rank)
  }

  function InsertAt<T>(s: seq<T>, p: nat, x: T): seq<T>
    requires p <= |s|
  {
    s[..p] + [x] + s[p..]
  }

  /** elv_requeue_request with ELEVATOR_INSERT_REQUEUE */
  function Requeue(q: Queue, i: nat): Queue
    requires i < |q.driver|
  {
    var r := q.driver[i];
    var r' := r.(started := false, soft := true);
    var q1 := q.(driver := Remove(q.driver, i),
                 inFlight := if r.Accounted() then q.inFlight - 1 else q.inFlight);
    var p := if q1.ordseq == {} then 0 else RequeuePos(q1, q1.head, SeqRank(q1, r'));
    q1.(head := InsertAt(q1.head, p, r'))
  }

  // ---------- The I/O scheduler ----------

  // The scheduler hands over request k, which the elevator core puts at position pos.
  datatype Dispatch = Dispatch(k: nat, pos: nat)

  /** elv_dispatch_sort and elv_dispatch_add_tail never pass a request with a stop flag. */
  predicate CanDispatch(q: Queue, d: Dispatch) {
    && d.k < |q.sorted|
    && d.pos <= |q.head|
    && forall i :: d.pos <= i < |q.head| ==> !q.head[i].Stops()
  }

  function DispatchOne(q: Queue, d: Dispatch): Queue
    requires CanDispatch(q, d)
  {
    q.(sorted := Remove(q.sorted, d.k), head := InsertAt(q.head, d.pos, q.sorted[d.k]))
  }

  predicate CanDispatchAll(q: Queue, plan: seq<Dispatch>)
    decreases |plan|
  {
    plan == [] || (CanDispatch(q, plan[0]) && CanDispatchAll(DispatchOne(q, plan[0]), plan[1..]))
  }

  function DispatchAll(q: Queue, plan: seq<Dispatch>): Queue
    requires CanDispatchAll(q, plan)
    decreases |plan|
  {
    if plan == [] then q else DispatchAll(DispatchOne(q, plan[0]), plan[1..])
  }

  // ---------- Adding requests ----------

  datatype Where = Front | Back | Sort

  // What the submitter sets: an fs or a special request, its barrier flags, whether it
  // carries scheduler data (REQ_ELVPRIV) and whether it has no sectors.
  datatype Submission = Submission(fs: bool, hard: bool, soft: bool, priv: bool, empty: bool)

  function NewRequest(q: Queue, s: Submission): Request {
    Request(if s.fs then Fs else Special, s.hard, s.soft, q.ordcolor, false, s.empty,
            |q.added|, |q.barriers|)
  }

  /** The insertion point that __elv_add_request settles on. */
  function Placement(s: Submission, place: Where): Where {
    if s.soft || s.hard then (if place == Sort then Back else place)
    else if !s.priv && place == Sort then Back
    else place
  }

  /** The colour and the history; only an fs barrier opens a new epoch. */
  function Register(q: Queue, s: Submission): Queue {
    q.(ordcolor := if s.hard then !q.ordcolor else q.ordcolor,
       added := if s.fs then q.added + [NewRequest(q, s)] else q.added,
       barriers := if s.fs && s.hard then q.barriers + [|q.added|] else q.barriers)
  }

  /** Back insertion drains the scheduler: the plan of dispatches must empty it. */
  predicate CanInsert(q: Queue, place: Where, plan: seq<Dispatch>) {
    place == Back ==> CanDispatchAll(q, plan) && DispatchAll(q, plan).sorted == []
  }

  /** elv_insert for new requests */
  function Insert(q: Queue, r: Request, place: Where, plan: seq<Dispatch>): Queue
    requires CanInsert(q, place, plan)
  {
    match place
    case Front => q.(head := [r.(soft := true)] + q.head)
    case Back =>
      var q1 := DispatchAll(q, plan);
      q1.(head := q1.head + [r.(soft := true)])
    case Sort =>
      q.(bug := q.bug || !r.IsFs(), sorted := q.sorted + [r])
  }

  /** __elv_add_request */
  function Add(q: Queue, s: Submission, place: Where, plan: seq<Dispatch>): Queue
    requires CanInsert(Register(q, s), Placement(s, place), plan)
  {
    Insert(Register(q, s), NewRequest(q, s), Placement(s, place), plan)
  }

  // ---------- Runs ----------

  datatype Action =
    | AddAction(s: Submission, place: Where, plan: seq<Dispatch>)
    | DispatchAction(d: Dispatch)
    | PeekAction
    | StartAction(i: nat)
    | CompleteAction(i: nat, error: int)
    | PartAction(i: nat, error: int)  // req_bio_endio for a part of bar_rq
    | RequeueAction(i: nat)

  predicate Enabled(q: Queue, a: Action) {
    match a
    case AddAction(s, place, plan) => CanInsert(Register(q, s), Placement(s, place), plan)
    case DispatchAction(d) => CanDispatch(q, d)
    case PeekAction => true
    case StartAction(i) => i < |q.head| && q.head[i].started
    case CompleteAction(i, _) => i < |q.driver|
    case PartAction(i, _) => i < |q.driver| && q.driver[i].kind == BarRq
    case RequeueAction(i) => i < |q.driver|
  }

  function Exec(q: Queue, a: Action): Queue
    requires Enabled(q, a)
  {
    match a
    case AddAction(s, place, plan) => Add(q, s, place, plan)
    case DispatchAction(d) => DispatchOne(q, d)
    case PeekAction => Peek(q)
    case StartAction(i) => Start(q, i)
    case CompleteAction(i, error) => Complete(q, i, error)
    case PartAction(_, error) => RecordError(q, error)
    case RequeueAction(i) => Requeue(q, i)
  }

  /**
   What the barrier code relies on from submitters: no fs request is put at the front,
   only fs requests are barriers, and only fs requests are given to the scheduler.
   */
  predicate Disciplined(a: Action) {
    a.AddAction? ==>
      && (a.s.fs ==> a.place != Front)
      && (a.s.hard ==> a.s.fs)
      && (!a.s.fs ==> Placement(a.s, a.place) != Sort)
  }

  predicate IsRun(q: Queue, run: seq<Action>)
    decreases |run|
  {
    run == [] || (Enabled(q, run[0]) && IsRun(Exec(q, run[0]), run[1..]))
  }

  function After(q: Queue, run: seq<Action>): Queue
    requires IsRun(q, run)
    decreases |run|
  {
    if run == [] then q else After(Exec(q, run[0]), run[1..])
  }
}
