/**
 Allocation of requests and the switch to another I/O scheduler, as steps that other threads may
 come between: memory is allocated with the queue lock released, and the switch waits until no
 request carries data of the old scheduler.
 */
module ElevatorSwitch {
  import opened Wrappers

  // A request that exists or is being allocated.  priv is REQ_ELVPRIV, or the decision to set it;
  // data names the scheduler whose private data it carries.
  datatype Rq = Rq(sync: bool, priv: bool, data: Option<nat>)

  // The counters of one class of requests.
  datatype Class = Class(count: nat, full: bool, starved: bool)

  // Where the thread that switches schedulers is.
  datatype Phase =
    | Idle
    | Draining(next: nat)
    | Attached(prior: nat)
    | Reverted

  datatype Queue = Queue(nrRequests: nat, congestionOn: nat, sync: Class, async: Class, elvpriv: int,
                         switching: bool, elevator: nat, pending: seq<Rq>, live: seq<Rq>, phase: Phase,
                         exited: seq<nat>)

  function Of(q: Queue, sync: bool): Class {
    if sync then q.sync else q.async
  }

  function With(q: Queue, sync: bool, c: Class): Queue {
    if sync then q.(sync := c) else q.(async := c)
  }

  // ---------- Getting and putting requests ----------

  // What the scheduler says of a new request.
  datatype May = No | Yes | Must

  /** get_request up to where it releases the lock: the class afterwards, and whether to go on. */
  function Admit(q: Queue, c: Class, may: May, batching: bool): (Class, bool) {
    if may == No then (if c.count == 0 then c.(starved := true) else c, false)
    else if c.count + 1 >= q.congestionOn && c.count + 1 >= q.nrRequests && c.full && may != Must && !batching then
      (c, false)
    else
      var c1 := if c.count + 1 >= q.congestionOn && c.count + 1 >= q.nrRequests then c.(full := true) else c;
      if c1.count >= 3 * q.nrRequests / 2 then (c1, false)
      else (c1.(count := c1.count + 1, starved := false), true)
  }

  function Get(q: Queue, sync: bool, may: May, batching: bool): Queue {
    var (c, go) := Admit(q, Of(q, sync), may, batching);
    var q1 := With(q, sync, c);
    if go then Given(q1, sync) else q1
  }

  /** A request is being allocated; it is marked for private data unless schedulers are switched. */
  function Given(q: Queue, sync: bool): Queue {
    q.(elvpriv := if q.switching then q.elvpriv else q.elvpriv + 1,
       pending := q.pending + [Rq(sync, !q.switching, None)])
  }

  /** blk_alloc_request succeeds, without the lock: the scheduler adds its data. */
  function Allocated(q: Queue, i: nat): Queue
    requires i < |q.pending|
  {
    var rq := q.pending[i];
    q.(pending := Remove(q.pending, i),
       live := q.live + [rq.(data := if rq.priv then Some(q.elevator) else None)])
  }

  /** __freed_request */
  function Freed(q: Queue, c: Class): Class {
    if c.count + 1 <= q.nrRequests then c.(full := false) else c
  }

  /** freed_request */
  function Release(q: Queue, sync: bool, priv: bool): Queue
    requires Of(q, sync).count > 0
  {
    var c := Of(q, sync);
    var q1 := With(q, sync, Freed(q, c.(count := c.count - 1)));
    var other := Of(q1, !sync);
    var q2 := With(q1, !sync, if other.starved then Freed(q1, other) else other);
    if priv then q2.(elvpriv := q2.elvpriv - 1) else q2
  }

  /** blk_alloc_request fails: the counters are put back. */
  function Failed(q: Queue, i: nat): Queue
    requires i < |q.pending| && Of(q, q.pending[i].sync).count > 0
  {
    var rq := q.pending[i];
    var q1 := Release(q.(pending := Remove(q.pending, i)), rq.sync, rq.priv);
    var c := Of(q1, rq.sync);
    With(q1, rq.sync, if c.count == 0 then c.(starved := true) else c)
  }

  /** __blk_put_request for the last reference. */
  function Put(q: Queue, i: nat): Queue
    requires i < |q.live| && Of(q, q.live[i].sync).count > 0
  {
    var rq := q.live[i];
    Release(q.(live := Remove(q.live, i)), rq.sync, rq.priv)
  }

  // ---------- Switching schedulers ----------

  /** elv_quiesce_start: from now on new requests get no private data. */
  function Quiesce(q: Queue, next: nat): Queue {
    q.(switching := true, phase := Draining(next))
  }

  /** The wait of elv_quiesce_start is over, and the new scheduler is attached under the same lock. */
  function Attach(q: Queue): Queue
    requires q.phase.Draining?
  {
    q.(elevator := q.phase.next, phase := Attached(q.elevator))
  }

  /** The new scheduler could be registered: the old one exits. */
  function Finish(q: Queue): Queue
    requires q.phase.Attached?
  {
    q.(switching := false, phase := Idle, exited := q.exited + [q.phase.prior])
  }

  /** It could not: the new one exits and the old one comes back, before the lock is taken again. */
  function Revert(q: Queue): Queue
    requires q.phase.Attached?
  {
    q.(elevator := q.phase.prior, phase := Reverted, exited := q.exited + [q.elevator])
  }

  function EndRevert(q: Queue): Queue {
    q.(switching := false, phase := Idle)
  }

  // ---------- Every interleaving ----------

  datatype Action =
    | GetAction(sync: bool, may: May, batching: bool)
    | AllocatedAction(i: nat)
    | FailedAction(i: nat)
    | PutAction(i: nat)
    | QuiesceAction(next: nat)
    | AttachAction
    | FinishAction
    | RevertAction
    | EndRevertAction

  /** One switch at a time, and the scheduler is attached only when no private data is left. */
  predicate Enabled(q: Queue, a: Action) {
    match a
    case GetAction(_, _, _) => true
    case AllocatedAction(i) => i < |q.pending|
    case FailedAction(i) => i < |q.pending| && Of(q, q.pending[i].sync).count > 0
    case PutAction(i) => i < |q.live| && Of(q, q.live[i].sync).count > 0
    case QuiesceAction(_) => q.phase == Idle
    case AttachAction => q.phase.Draining? && q.elvpriv == 0
    case FinishAction => q.phase.Attached?
    case RevertAction => q.phase.Attached?
    case EndRevertAction => q.phase == Reverted
  }

  function Exec(q: Queue, a: Action): Queue
    requires Enabled(q, a)
  {
    match a
    case GetAction(sync, may, batching) => Get(q, sync, may, batching)
    case AllocatedAction(i) => Allocated(q, i)
    case FailedAction(i) => Failed(q, i)
    case PutAction(i) => Put(q, i)
    case QuiesceAction(next) => Quiesce(q, next)
    case AttachAction => Attach(q)
    case FinishAction => Finish(q)
    case RevertAction => Revert(q)
    case EndRevertAction => EndRevert(q)
  }

  // ---------- What every step keeps ----------

  function CountSync(s: seq<Rq>, sync: bool): nat {
    if s == [] then 0 else CountSync(s[..|s| - 1], sync) + (if s[|s| - 1].sync == sync then 1 else 0)
  }

  function CountPriv(s: seq<Rq>): nat {
    if s == [] then 0 else CountPriv(s[..|s| - 1]) + (if s[|s| - 1].priv then 1 else 0)
  }

  /** The counters count the requests that exist or are being allocated. */
  predicate CountersOk(q: Queue) {
    && q.sync.count == CountSync(q.pending, true) + CountSync(q.live, true)
    && q.async.count == CountSync(q.pending, false) + CountSync(q.live, false)
    && q.elvpriv == CountPriv(q.pending) + CountPriv(q.live)
  }

  predicate ClassOk(q: Queue, c: Class) {
    c.count <= 3 * q.nrRequests / 2 && (c.full ==> c.count >= q.nrRequests)
  }

  /** A request carries data exactly if it is marked, and of the scheduler that is attached. */
  predicate DataOk(q: Queue) {
    && (forall i :: 0 <= i < |q.live| ==> q.live[i].data == if q.live[i].priv then Some(q.elevator) else None)
    && (forall i :: 0 <= i < |q.pending| ==> q.pending[i].data == None)
  }

  /** Between the end of the drain and the end of the switch no request has private data. */
  predicate PhaseOk(q: Queue) {
    && (q.phase != Idle <==> q.switching)
    && (q.phase.Attached? || q.phase == Reverted ==> q.elvpriv == 0)
  }

  predicate Inv(q: Queue) {
    CountersOk(q) && ClassOk(q, q.sync) && ClassOk(q, q.async) && DataOk(q) && PhaseOk(q)
  }

  lemma {:induction false} CountAppend(s: seq<Rq>, t: seq<Rq>, sync: bool)
    ensures CountSync(s + t, sync) == CountSync(s, sync) + CountSync(t, sync)
    ensures CountPriv(s + t) == CountPriv(s) + CountPriv(t)
  {
    if t == [] {
      assert s + t == s;
    } else {
      CountAppend(s, t[..|t| - 1], sync);
      assert (s + t)[..|s + t| - 1] == s + t[..|t| - 1];
    }
  }

  lemma {:induction false} CountDrop(s: seq<Rq>, i: nat, sync: bool)
    requires i < |s|
    ensures CountSync(Remove(s, i), sync) == CountSync(s, sync) - (if s[i].sync == sync then 1 else 0)
    ensures CountPriv(Remove(s, i)) == CountPriv(s) - (if s[i].priv then 1 else 0)
  {
    assert s == (s[..i] + [s[i]]) + s[i + 1..];
    CountAppend(s[..i] + [s[i]], s[i + 1..], sync);
    CountAppend(s[..i], [s[i]], sync);
    CountAppend(s[..i], s[i + 1..], sync);
    assert [s[i]][..0] == [];
  }

  lemma {:induction false} CountSnoc(s: seq<Rq>, r: Rq, sync: bool)
    ensures CountSync(s + [r], sync) == CountSync(s, sync) + (if r.sync == sync then 1 else 0)
    ensures CountPriv(s + [r]) == CountPriv(s) + (if r.priv then 1 else 0)
  {
    assert (s + [r])[..|s|] == s;
  }

  /** With no private data counted, no request is marked. */
  lemma {:induction false} NoneMarked(s: seq<Rq>)
    requires CountPriv(s) == 0
    ensures forall i :: 0 <= i < |s| ==> !s[i].priv
  {
    if s != [] {
      NoneMarked(s[..|s| - 1]);
    }
  }

  lemma {:induction false} AdmitOk(q: Queue, c: Class, may: May, batching: bool)
    requires ClassOk(q, c)
    ensures var (c', go) := Admit(q, c, may, batching);
            ClassOk(q, c') && c'.count == c.count + (if go then 1 else 0)
  {
  }

  lemma {:induction false} GetKeeps(q: Queue, sync: bool, may: May, batching: bool)
    requires Inv(q)
    ensures Inv(Get(q, sync, may, batching))
  {
    AdmitOk(q, Of(q, sync), may, batching);
    var (c, go) := Admit(q, Of(q, sync), may, batching);
    GotKeeps(q, sync, c, go);
  }

  /** The two ways get_request leaves the queue. */
  lemma {:induction false} GotKeeps(q: Queue, sync: bool, c: Class, go: bool)
    requires Inv(q) && ClassOk(q, c) && c.count == Of(q, sync).count + (if go then 1 else 0)
    ensures !go ==> Inv(With(q, sync, c))
    ensures go ==> Inv(Given(With(q, sync, c), sync))
  {
    var q1 := With(q, sync, c);
    WithClass(q, sync, c);
    if go {
      var r := Rq(sync, !q.switching, None);
      CountSnoc(q.pending, r, true);
      CountSnoc(q.pending, r, false);
      GivenData(q1, sync);
    }
  }

  lemma {:induction false} WithClass(q: Queue, sync: bool, c: Class)
    requires ClassOk(q, q.sync) && ClassOk(q, q.async) && ClassOk(q, c) && DataOk(q)
    ensures var q1 := With(q, sync, c);
            && ClassOk(q1, q1.sync) && ClassOk(q1, q1.async) && DataOk(q1)
            && Of(q1, sync) == c && Of(q1, !sync) == Of(q, !sync)
  {
  }

  lemma {:induction false} GivenData(q: Queue, sync: bool)
    requires DataOk(q)
    ensures DataOk(Given(q, sync))
  {
  }

  lemma {:induction false} AllocatedKeeps(q: Queue, i: nat)
    requires Inv(q) && i < |q.pending|
    ensures Inv(Allocated(q, i))
  {
    var rq := q.pending[i];
    var r := rq.(data := if rq.priv then Some(q.elevator) else None);
    CountDrop(q.pending, i, true);
    CountDrop(q.pending, i, false);
    CountSnoc(q.live, r, true);
    CountSnoc(q.live, r, false);
    assert CountersOk(Allocated(q, i));
    AllocatedData(q, i);
  }

  lemma {:induction false} AllocatedData(q: Queue, i: nat)
    requires DataOk(q) && i < |q.pending|
    ensures DataOk(Allocated(q, i))
  {
  }

  /** Releasing changes the counters and the marks of the classes only. */
  lemma {:induction false} ReleaseFields(q: Queue, sync: bool, priv: bool)
    requires Of(q, sync).count > 0
    ensures var q' := Release(q, sync, priv);
            && q'.pending == q.pending && q'.live == q.live && q'.elevator == q.elevator
            && q'.switching == q.switching && q'.phase == q.phase && q'.nrRequests == q.nrRequests
            && Of(q', sync).count == Of(q, sync).count - 1 && Of(q', !sync).count == Of(q, !sync).count
            && q'.elvpriv == (if priv then q.elvpriv - 1 else q.elvpriv)
  {
  }

  lemma {:induction false} ReleaseClasses(q: Queue, sync: bool, priv: bool)
    requires Of(q, sync).count > 0 && ClassOk(q, q.sync) && ClassOk(q, q.async)
    ensures var q' := Release(q, sync, priv); ClassOk(q', q'.sync) && ClassOk(q', q'.async)
  {
  }

  lemma {:induction false} ReleasedKeeps(q: Queue, q1: Queue, sync: bool, priv: bool)
    requires Inv(q) && Of(q, sync).count > 0 && q1 == q.(pending := q1.pending, live := q1.live) && DataOk(q1)
    requires forall k :: CountSync(q.pending, k) + CountSync(q.live, k)
                      == CountSync(q1.pending, k) + CountSync(q1.live, k) + (if k == sync then 1 else 0)
    requires CountPriv(q.pending) + CountPriv(q.live)
          == CountPriv(q1.pending) + CountPriv(q1.live) + (if priv then 1 else 0)
    ensures Inv(Release(q1, sync, priv))
  {
    ReleaseFields(q1, sync, priv);
    ReleaseClasses(q1, sync, priv);
  }

  lemma {:induction false} StarvedKeeps(q: Queue, sync: bool, starved: bool)
    requires Inv(q)
    ensures Inv(With(q, sync, Of(q, sync).(starved := starved)))
  {
  }

  lemma {:induction false} FailedKeeps(q: Queue, i: nat)
    requires Inv(q) && i < |q.pending| && Of(q, q.pending[i].sync).count > 0
    ensures Inv(Failed(q, i))
  {
    var rq := q.pending[i];
    var q1 := q.(pending := Remove(q.pending, i));
    CountDrop(q.pending, i, true);
    CountDrop(q.pending, i, false);
    ReleasedKeeps(q, q1, rq.sync, rq.priv);
    var q2 := Release(q1, rq.sync, rq.priv);
    StarvedKeeps(q2, rq.sync, true);
    FailedIs(q, i, q2);
  }

  lemma {:induction false} FailedIs(q: Queue, i: nat, q2: Queue)
    requires i < |q.pending| && Of(q, q.pending[i].sync).count > 0
    requires q2 == Release(q.(pending := Remove(q.pending, i)), q.pending[i].sync, q.pending[i].priv)
    ensures var c := Of(q2, q.pending[i].sync);
            Failed(q, i) == q2 || Failed(q, i) == With(q2, q.pending[i].sync, c.(starved := true))
  {
  }

  lemma {:induction false} PutKeeps(q: Queue, i: nat)
    requires Inv(q) && i < |q.live| && Of(q, q.live[i].sync).count > 0
    ensures Inv(Put(q, i))
  {
    var rq := q.live[i];
    CountDrop(q.live, i, true);
    CountDrop(q.live, i, false);
    ReleasedKeeps(q, q.(live := Remove(q.live, i)), rq.sync, rq.priv);
  }

  /** Another scheduler may take over when no request is marked. */
  lemma {:induction false} SwapKeepsData(q: Queue, elevator: nat)
    requires CountersOk(q) && DataOk(q) && q.elvpriv == 0
    ensures DataOk(q.(elevator := elevator))
    ensures forall i :: 0 <= i < |q.live| ==> q.live[i].data == None
  {
    NoneMarked(q.live);
  }

  lemma {:induction false} ExecKeeps(q: Queue, a: Action)
    requires Inv(q) && Enabled(q, a)
    ensures Inv(Exec(q, a))
  {
    match a
    case GetAction(sync, may, batching) => GetKeeps(q, sync, may, batching);
    case AllocatedAction(i) => AllocatedKeeps(q, i);
    case FailedAction(i) => FailedKeeps(q, i);
    case PutAction(i) => PutKeeps(q, i);
    case QuiesceAction(_) =>
    case AttachAction => SwapKeepsData(q, q.phase.next);
    case FinishAction =>
    case RevertAction => SwapKeepsData(q, q.phase.prior);
    case EndRevertAction =>
  }

  predicate IsRun(q: Queue, run: seq<Action>)
    decreases |run|
  {
    run == [] || (Enabled(q, run[0]) && IsRun(Exec(q, run[0]), run[1..]))
  }

  function After(q: Queue, run: seq<Action>): Queue
    requires IsRun(q, run)
    decreases |run|
  {
    if run == [] then q else After(Exec(q, run[0]), run[1..])
  }

  lemma {:induction false} RunKeeps(q: Queue, run: seq<Action>)
    requires Inv(q) && IsRun(q, run)
    ensures Inv(After(q, run))
    decreases |run|
  {
    if run != [] {
      ExecKeeps(q, run[0]);
      RunKeeps(Exec(q, run[0]), run[1..]);
    }
  }

  function Start(nrRequests: nat, congestionOn: nat, elevator: nat): (q: Queue)
    ensures Inv(q)
  {
    Queue(nrRequests, congestionOn, Class(0, false, false), Class(0, false, false), 0, false,
          elevator, [], [], Idle, [])
  }

  /** A request that exists is counted, so giving it back is always possible. */
  lemma {:induction false} GivingBackPossible(q: Queue, i: nat)
    requires Inv(q)
    ensures i < |q.live| ==> Enabled(q, PutAction(i))
    ensures i < |q.pending| ==> Enabled(q, FailedAction(i))
  {
    if i < |q.live| {
      CountDrop(q.live, i, q.live[i].sync);
    }
    if i < |q.pending| {
      CountDrop(q.pending, i, q.pending[i].sync);
    }
  }

  /**
   In every interleaving elvpriv counts the requests with private data and those about to get some,
   and each class counter the requests of its class; neither class exceeds half as much again as
   nr_requests.
   */
  lemma {:induction false} CountersExact(nrRequests: nat, congestionOn: nat, elevator: nat, run: seq<Action>)
    requires IsRun(Start(nrRequests, congestionOn, elevator), run)
    ensures var q := After(Start(nrRequests, congestionOn, elevator), run);
            && q.elvpriv == CountPriv(q.pending) + CountPriv(q.live)
            && q.sync.count == CountSync(q.pending, true) + CountSync(q.live, true) <= 3 * nrRequests / 2
            && q.async.count == CountSync(q.pending, false) + CountSync(q.live, false) <= 3 * nrRequests / 2
  {
    RunKeeps(Start(nrRequests, congestionOn, elevator), run);
    SettingsKept(Start(nrRequests, congestionOn, elevator), run);
  }

  lemma {:induction false} SettingsKept(q: Queue, run: seq<Action>)
    requires IsRun(q, run)
    ensures After(q, run).nrRequests == q.nrRequests
    decreases |run|
  {
    if run != [] {
      SettingsKept(Exec(q, run[0]), run[1..]);
    }
  }

  /** No request carries data of a scheduler that is not attached, and so none of one that has exited. */
  lemma {:induction false} DataOfAttachedOnly(nrRequests: nat, congestionOn: nat, elevator: nat, run: seq<Action>)
    requires IsRun(Start(nrRequests, congestionOn, elevator), run)
    ensures var q := After(Start(nrRequests, congestionOn, elevator), run);
            && (forall i :: 0 <= i < |q.live| && q.live[i].data.Some? ==> q.live[i].data.value == q.elevator)
            && (q.phase.Attached? || q.phase == Reverted ==> forall i :: 0 <= i < |q.live| ==> q.live[i].data == None)
  {
    RunKeeps(Start(nrRequests, congestionOn, elevator), run);
    var q := After(Start(nrRequests, congestionOn, elevator), run);
    if q.phase.Attached? || q.phase == Reverted {
      SwapKeepsData(q, q.elevator);
    }
  }

  /** A process that may not exceed the limit is turned away only when the limit is reached. */
  lemma {:induction false} TurnedAwayOnlyAtLimit(q: Queue, sync: bool, may: May, batching: bool)
    requires Inv(q) && may != No && !Admit(q, Of(q, sync), may, batching).1
    ensures Of(q, sync).count >= q.nrRequests
  {
  }

  // ---------- The object ----------

  class RequestPool {
    const nrRequests: nat
    const congestionOn: nat
    var sync: Class
    var async: Class
    var elvpriv: int
    var switching: bool
    var elevator: nat
    var pending: seq<Rq>
    var live: seq<Rq>
    var phase: Phase
    var exited: seq<nat>

    function View(): Queue
      reads this
    {
      Queue(nrRequests, congestionOn, sync, async, elvpriv, switching, elevator, pending, live, phase, exited)
    }

    constructor (nrRequests: nat, congestionOn: nat, elevator: nat)
      ensures View() == Start(nrRequests, congestionOn, elevator)
    {
      this.nrRequests, this.congestionOn := nrRequests, congestionOn;
      sync, async := Class(0, false, false), Class(0, false, false);
      elvpriv, switching := 0, false;
      this.elevator := elevator;
      pending, live, phase, exited := [], [], Idle, [];
    }

    method SetClass(isSync: bool, c: Class)
      modifies `sync, `async
      ensures View() == With(old(View()), isSync, c)
    {
      if isSync {
        sync := c;
      } else {
        async := c;
      }
    }

    /** The checks of get_request against the limits of a class. */
    method Screen(c: Class, may: May, batching: bool) returns (c': Class, go: bool)
      ensures (c', go) == Admit(View(), c, may, batching)
    {
      c' := c;
      if may == No {
        if c.count == 0 {
          c' := c.(starved := true);
        }
        return c', false;
      }
      if c.count + 1 >= congestionOn {
        if c.count + 1 >= nrRequests {
          if !c.full {
            c' := c.(full := true);
          } else if may != Must && !batching {
            return c', false;
          }
        }
      }
      if c.count >= 3 * nrRequests / 2 {
        return c', false;
      }
      return c'.(count := c.count + 1, starved := false), true;
    }

    /** get_request, while the lock is held. */
    method GetRequest(isSync: bool, may: May, batching: bool) returns (go: bool)
      modifies this
      ensures View() == Get(old(View()), isSync, may, batching)
      ensures go == Admit(old(View()), Of(old(View()), isSync), may, batching).1
    {
      var c;
      c, go := Screen(if isSync then sync else async, may, batching);
      SetClass(isSync, c);
      if go {
        var priv := !switching;
        if priv {
          elvpriv := elvpriv + 1;
        }
        pending := pending + [Rq(isSync, priv, None)];
      }
    }

    /** blk_alloc_request returns a request. */
    method FinishAllocation(i: nat)
      requires i < |pending|
      modifies `pending, `live
      ensures View() == Allocated(old(View()), i)
    {
      var rq := pending[i];
      pending := Remove(pending, i);
      if rq.priv {
        rq := rq.(data := Some(elevator));
      } else {
        rq := rq.(data := None);
      }
      live := live + [rq];
    }

    /** freed_request */
    method FreedRequest(isSync: bool, priv: bool)
      requires (if isSync then sync else async).count > 0
      modifies `sync, `async, `elvpriv
      ensures View() == Release(old(View()), isSync, priv)
    {
      var c := if isSync then sync else async;
      c := c.(count := c.count - 1);
      if c.count + 1 <= nrRequests {
        c := c.(full := false);
      }
      SetClass(isSync, c);
      if priv {
        elvpriv := elvpriv - 1;
      }
      var other := if isSync then async else sync;
      if other.starved && other.count + 1 <= nrRequests {
        SetClass(!isSync, other.(full := false));
      }
    }

    /** blk_alloc_request returns nothing. */
    method FailAllocation(i: nat)
      requires i < |pending| && (if pending[i].sync then sync else async).count > 0
      modifies `pending, `sync, `async, `elvpriv
      ensures View() == Failed(old(View()), i)
    {
      var rq := pending[i];
      pending := Remove(pending, i);
      FreedRequest(rq.sync, rq.priv);
      var c := if rq.sync then sync else async;
      if c.count == 0 {
        SetClass(rq.sync, c.(starved := true));
      }
    }

    /** __blk_put_request */
    method PutRequest(i: nat)
      requires i < |live| && (if live[i].sync then sync else async).count > 0
      modifies `live, `sync, `async, `elvpriv
      ensures View() == Put(old(View()), i)
    {
      var rq := live[i];
      live := Remove(live, i);
      FreedRequest(rq.sync, rq.priv);
    }

    /** elv_quiesce_start */
    method StartSwitch(next: nat)
      requires phase == Idle
      modifies `switching, `phase
      ensures View() == Quiesce(old(View()), next)
    {
      switching := true;
      phase := Draining(next);
    }

    /** elevator_attach, under the lock under which elvpriv was seen to be zero. */
    method AttachNew()
      requires phase.Draining? && elvpriv == 0
      modifies `elevator, `phase
      ensures View() == Attach(old(View()))
    {
      var was := elevator;
      elevator := phase.next;
      phase := Attached(was);
    }

    /** The end of elevator_switch. */
    method FinishSwitch()
      requires phase.Attached?
      modifies `switching, `phase, `exited
      ensures View() == Finish(old(View()))
    {
      exited := exited + [phase.prior];
      switching := false;
      phase := Idle;
    }

    /** fail_register, up to where the old scheduler is back. */
    method RevertSwitch()
      requires phase.Attached?
      modifies `elevator, `phase, `exited
      ensures View() == Revert(old(View()))
    {
      exited := exited + [elevator];
      elevator := phase.prior;
      phase := Reverted;
    }

    /** The end of fail_register. */
    method EndFailedSwitch()
      modifies `switching, `phase
      ensures View() == EndRevert(old(View()))
    {
      switching := false;
      phase := Idle;
    }
  }
}
