/**
 What the barrier protocol guarantees on every disciplined run: ordering, unreachable
 BUG_ONs, the fate of each barrier and freedom from deadlock; and that the discipline is
 exact: any other kind of addition has a run that breaks the guarantee.
 */
module BarrierTheorems {
  import opened Wrappers
  import opened BarrierModel
  import opened BarrierProof

  // ---------- The theorems ----------

  /**
   The promise of a barrier, in terms of the order of additions alone.  A proxy reaches
   the driver only after every request added before the barrier has ended; a request
   reaches the driver only after every barrier added before it has ended.
   */
  predicate BarrierOrder(q: Queue) {
    && (forall r, id :: r in q.driver && r.IsProxy() && 0 <= id < q.origBar.id ==> id in q.completed)
    && (forall r, b :: r in q.driver && r.kind == Fs && 0 <= b < r.id && b < |q.added| && q.added[b].hard ==>
          b in q.completed)
  }

  lemma {:induction false} InvGivesOrder(q: Queue)
    requires Inv(q)
    ensures BarrierOrder(q)
  {
    forall r, id | r in q.driver && r.IsProxy() && 0 <= id < q.origBar.id ensures id in q.completed {
      ProxyAfterDrain(q, r, id);
    }
    forall r, b | r in q.driver && r.kind == Fs && 0 <= b < r.id && b < |q.added| && q.added[b].hard
      ensures b in q.completed
    {
      assert DriverMember(q, r);
      var k := q.added[b].epoch;
      assert q.ends[k].id == q.barriers[k];
      assert q.added[q.barriers[k]].epoch == k;
    }
  }

  lemma {:induction false} ProxyAfterDrain(q: Queue, r: Request, id: nat)
    requires Inv(q) && r in q.driver && r.IsProxy() && id < q.origBar.id
    ensures id in q.completed
  {
    var i :| 0 <= i < |q.driver| && q.driver[i] == r;
    assert q.driver[i].IsProxy();
    assert Drain in q.ordseq;
    assert q.added[id].epoch <= |q.ends|;
    assert LocatedAt(q, id);
    forall x | x in q.head && x.kind == Fs
      ensures x.id != id
    {
      assert HeadMember(q, x);
    }
    assert !Holds(q.sorted, id) && !Holds(q.driver, id);
  }

  /** Barrier safety over every run of a queue in any draining mode. */
  lemma {:induction false} BarriersHold(o: Ordered, run: seq<Action>)
    requires IsRun(InitialQueue(Some(o)), run) && forall a :: a in run ==> Disciplined(a)
    ensures BarrierOrder(After(InitialQueue(Some(o)), run))
  {
    InitialHolds(o);
    RunKeeps(InitialQueue(Some(o)), run);
    InvGivesOrder(After(InitialQueue(Some(o)), run));
  }

  /** No BUG_ON is reached (no stage bit is set twice) and the WARN_ON stays silent. */
  lemma {:induction false} NoBugNoWarn(o: Ordered, run: seq<Action>)
    requires IsRun(InitialQueue(Some(o)), run) && forall a :: a in run ==> Disciplined(a)
    ensures var q := After(InitialQueue(Some(o)), run); !q.bug && !q.warn
  {
    InitialHolds(o);
    RunKeeps(InitialQueue(Some(o)), run);
  }

  /** Proxies go out one at a time, each after every earlier stage has completed. */
  predicate OneProxyAtATime(q: Queue) {
    && (forall i, j :: 0 <= i < j < |q.driver| ==> !(q.driver[i].IsProxy() && q.driver[j].IsProxy()))
    && (forall r, s :: r in q.driver && r.IsProxy() ==>
          (Rank(s) < Rank(ProxyStage(r.kind)) ==> s in q.ordseq))
  }

  lemma {:induction false} InvGivesProxyOrder(q: Queue)
    requires Inv(q)
    ensures OneProxyAtATime(q)
  {
    forall r, s | r in q.driver && r.IsProxy() && Rank(s) < Rank(ProxyStage(r.kind))
      ensures s in q.ordseq
    {
      var i :| 0 <= i < |q.driver| && q.driver[i] == r;
      assert q.driver[i].IsProxy();
    }
  }

  lemma {:induction false} ProxiesInOrder(o: Ordered, run: seq<Action>)
    requires IsRun(InitialQueue(Some(o)), run) && forall a :: a in run ==> Disciplined(a)
    ensures OneProxyAtATime(After(InitialQueue(Some(o)), run))
  {
    InitialHolds(o);
    RunKeeps(InitialQueue(Some(o)), run);
    InvGivesProxyOrder(After(InitialQueue(Some(o)), run));
  }

  /** Barriers end once each, in the order they were added, with the first error reported. */
  lemma {:induction false} BarriersEndOnce(o: Ordered, run: seq<Action>)
    requires IsRun(InitialQueue(Some(o)), run) && forall a :: a in run ==> Disciplined(a)
    ensures var q := After(InitialQueue(Some(o)), run);
            && |q.ends| <= |q.barriers|
            && (forall k :: 0 <= k < |q.ends| ==>
                  q.ends[k].id == q.barriers[k] && q.ends[k].error == FirstError(q.ends[k].reports))
            && (forall k :: 0 <= k < |q.barriers| ==> (q.barriers[k] in q.completed <==> k < |q.ends|))
            && (forall k, m :: 0 <= k < m < |q.barriers| ==> q.barriers[k] < q.barriers[m])
  {
    InitialHolds(o);
    RunKeeps(InitialQueue(Some(o)), run);
    BarriersInOrder(After(InitialQueue(Some(o)), run));
  }

  lemma {:induction false} BarriersInOrder(q: Queue)
    requires Inv(q)
    ensures forall k, m :: 0 <= k < m < |q.barriers| ==> q.barriers[k] < q.barriers[m]
  {
    forall k, m | 0 <= k < m < |q.barriers| ensures q.barriers[k] < q.barriers[m] {
      assert q.added[q.barriers[k]].epoch == k && q.added[q.barriers[m]].epoch == m;
    }
  }

  /** With an idle driver the queue never holds back its head, so a sequence never hangs. */
  lemma {:induction false} NeverStuck(o: Ordered, run: seq<Action>)
    requires IsRun(InitialQueue(Some(o)), run) && forall a :: a in run ==> Disciplined(a)
    ensures var q := After(InitialQueue(Some(o)), run);
            q.driver == [] ==>
              && (q.ordseq != {} ==> q.head != [])
              && (q.head != [] ==> DoOrdered(q).1 != Hold)
  {
    InitialHolds(o);
    RunKeeps(InitialQueue(Some(o)), run);
    IdleNotStuck(After(InitialQueue(Some(o)), run));
  }

  lemma {:induction false} IdleNotStuck(q: Queue)
    requires Inv(q)
    ensures q.driver == [] ==>
              && (q.ordseq != {} ==> q.head != [])
              && (q.head != [] ==> DoOrdered(q).1 != Hold)
  {
    if q.driver == [] && q.ordseq != {} {
      if Drain !in q.ordseq {
        assert q.head != [];
        assert HeadMember(q, q.head[0]);
        if q.head[0].kind == Fs {
          FrontStage(q);
        }
      } else {
        IdleProxyFirst(q);
      }
      FrontVerdict(q);
    } else if q.driver == [] && q.head != [] {
      assert HeadMember(q, q.head[0]);
    }
  }

  lemma {:induction false} IdleProxyFirst(q: Queue)
    requires Inv(q) && q.driver == [] && q.ordseq != {} && Drain in q.ordseq
    ensures q.head != []
    ensures q.head[0].kind == Special || (q.head[0].IsProxy() && ProxyStage(q.head[0].kind) == FirstClear(q.ordseq))
  {
    var s := FirstClear(q.ordseq);
    var k := if s == PreFlush then PreFlushRq else if s == Bar then BarRq else PostFlushRq;
    assert ProxyPlaced(q, k);
    assert Has(q.head, k);
    var j :| 0 <= j < |q.head| && q.head[j].kind == k;
    assert HeadMember(q, q.head[0]);
    assert 0 < j ==> Before(|q.ends|, q.head[0], q.head[j]);
    if q.head[0].IsProxy() {
      assert Has(q.head, q.head[0].kind);
      assert ProxyPlaced(q, q.head[0].kind);
    }
  }

  // ---------- The discipline is exact ----------

  const FS: Submission := Submission(true, false, false, true, false)
  const BARRIER: Submission := Submission(true, true, false, true, false)
  const BAR_ONLY: Ordered := Ordered(false, true, false)
  const FLUSH: Ordered := Ordered(true, true, true)

  /** A disciplined action, or an addition of the one further kind under test. */
  predicate Allowed(a: Action, s: Submission, place: Where) {
    Disciplined(a) || (a.AddAction? && a.s == s && a.place == place)
  }

  predicate Sound(q: Queue) {
    BarrierOrder(q) && !q.bug
  }

  predicate RunsTo(o: Ordered, run: seq<Action>, q: Queue) {
    IsRun(InitialQueue(Some(o)), run) && After(InitialQueue(Some(o)), run) == q
  }

  /** Some run with allowed actions only ends in this state. */
  ghost predicate Reaches(o: Ordered, s: Submission, place: Where, q: Queue) {
    exists run :: RunsTo(o, run, q) && forall a :: a in run ==> Allowed(a, s, place)
  }

  lemma {:induction false} Extend(q: Queue, run: seq<Action>, a: Action)
    requires IsRun(q, run) && Enabled(After(q, run), a)
    ensures IsRun(q, run + [a]) && After(q, run + [a]) == Exec(After(q, run), a)
    decreases |run|
  {
    if run == [] {
      assert run + [a] == [a];
      assert [a][1..] == [];
    } else {
      assert (run + [a])[1..] == run[1..] + [a];
      Extend(Exec(q, run[0]), run[1..], a);
    }
  }

  lemma {:induction false} ReachInitial(o: Ordered, s: Submission, place: Where)
    ensures Reaches(o, s, place, InitialQueue(Some(o)))
  {
    assert RunsTo(o, [], InitialQueue(Some(o)));
  }

  lemma {:induction false} ReachStep(o: Ordered, s: Submission, place: Where, q: Queue, a: Action)
    requires Reaches(o, s, place, q) && Enabled(q, a) && Allowed(a, s, place)
    ensures Reaches(o, s, place, Exec(q, a))
  {
    var run :| RunsTo(o, run, q) && forall b :: b in run ==> Allowed(b, s, place);
    Extend(InitialQueue(Some(o)), run, a);
    assert RunsTo(o, run + [a], Exec(q, a));
  }

  /** One further kind of addition may be allowed exactly when it is disciplined. */
  lemma {:induction false} DisciplineIsExact(s: Submission, place: Where)
    ensures Disciplined(AddAction(s, place, [])) <==>
            forall o, q :: Reaches(o, s, place, q) ==> Sound(q)
  {
    if Disciplined(AddAction(s, place, [])) {
      forall o, q | Reaches(o, s, place, q) ensures Sound(q) {
        var run :| RunsTo(o, run, q) && forall a :: a in run ==> Allowed(a, s, place);
        BarriersHold(o, run);
        NoBugNoWarn(o, run);
      }
    } else if s.fs {
      var q := FrontInsertedFsOvertakes(s);
    } else if s.hard {
      var q := SpecialBarrierBreaksOrder(s, place);
    } else {
      var q := SortedSpecialIsBug(s, place);
    }
  }

  /** Giving the scheduler a special request is a BUG_ON. */
  lemma {:induction false} SortedSpecialIsBug(s: Submission, place: Where) returns (q: Queue)
    requires !s.fs && Placement(s, place) == Sort
    ensures Reaches(BAR_ONLY, s, place, q) && q.bug
  {
    ReachInitial(BAR_ONLY, s, place);
    ReachStep(BAR_ONLY, s, place, InitialQueue(Some(BAR_ONLY)), AddAction(s, place, []));
    q := Add(InitialQueue(Some(BAR_ONLY)), s, place, []);
  }

  /** An fs request put at the front overtakes a barrier added before it. */
  lemma {:induction false} FrontInsertedFsOvertakes(s: Submission) returns (q: Queue)
    requires s.fs
    ensures exists o :: Reaches(o, s, Front, q)
    ensures !BarrierOrder(q)
  {
    var o := if s.hard then FLUSH else BAR_ONLY;
    var q0 := InitialQueue(Some(o));
    ReachInitial(o, s, Front);
    ReachStep(o, s, Front, q0, AddAction(BARRIER, Sort, []));
    var q1 := Add(q0, BARRIER, Sort, []);
    ReachStep(o, s, Front, q1, AddAction(s, Front, []));
    var q2 := Add(q1, s, Front, []);
    if s.hard {
      SecondBarrierFirst(s, q1, q2);
    } else {
      PlainRequestFirst(s, q1, q2);
    }
    ReachStep(o, s, Front, q2, PeekAction);
    ReachStep(o, s, Front, Peek(q2), StartAction(0));
    q := Start(Peek(q2), 0);
  }

  lemma {:induction false} PlainRequestFirst(s: Submission, q1: Queue, q2: Queue)
    requires s.fs && !s.hard
    requires q1 == Add(InitialQueue(Some(BAR_ONLY)), BARRIER, Sort, []) && q2 == Add(q1, s, Front, [])
    ensures Peek(q2).head != [] && Peek(q2).head[0].started && !BarrierOrder(Start(Peek(q2), 0))
  {
    var r := NewRequest(q1, s).(soft := true);
    assert q2.head[0] == r;
    assert q2.added[0].hard;
    var q4 := Start(Peek(q2), 0);
    assert q4.driver[0] == r.(started := true);
    assert q4.driver[0] in q4.driver && 0 !in q4.completed;
  }

  lemma {:induction false} SecondBarrierFirst(s: Submission, q1: Queue, q2: Queue)
    requires s.fs && s.hard
    requires q1 == Add(InitialQueue(Some(FLUSH)), BARRIER, Sort, []) && q2 == Add(q1, s, Front, [])
    ensures Peek(q2).head != [] && Peek(q2).head[0].started && !BarrierOrder(Start(Peek(q2), 0))
  {
    assert q2.head[0] == NewRequest(q1, s).(soft := true);
    FlushGoesFirst(q2);
    ProxyTooEarly(Start(Peek(q2), 0));
  }

  /** A barrier at the head of an idle queue is replaced by its flush, which may go out. */
  lemma {:induction false} FlushGoesFirst(q: Queue)
    requires q.head != [] && q.head[0].IsBarrier() && !q.head[0].Accounted()
    requires q.next == Some(FLUSH) && q.ordseq == {} && q.inFlight == 0
    ensures Peek(q).head != [] && Peek(q).head[0] == Proxy(PreFlushRq).(started := true)
    ensures Peek(q).completed == q.completed && Peek(q).origBar == q.head[0] && Peek(q).driver == q.driver
  {
    var m := BeginOrdered(q, FLUSH);
    assert m.head[0] == Proxy(PreFlushRq);
    SkippedStages(m.ordered, true);
  }

  // The run below: requests 0 and 1 are with the driver, a special barrier has come and
  // gone, and barrier 2 is next.
  const R0: Request := Request(Fs, false, true, false, true, false, 0, 0)
  const R1: Request := Request(Fs, false, true, false, true, false, 1, 0)
  const B2: Request := Request(Fs, true, true, true, false, false, 2, 0)

  function BeforeBarrier(): Queue {
    InitialQueue(Some(BAR_ONLY)).(
      driver := [R0, R1],
      inFlight := 2,
      ordcolor := true,
      added := [R0.(soft := false, started := false), R1.(soft := false, started := false)])
  }

  function BarrierAdded(): Queue {
    BeforeBarrier().(head := [B2], ordcolor := false, barriers := [2],
                     added := BeforeBarrier().added + [B2.(soft := false)])
  }

  function BarrierStarted(): Queue {
    BarrierAdded().(head := [Proxy(BarRq)], ordered := BAR_ONLY, origBar := B2,
                    ordseq := {Started, PreFlush, PostFlush}, reports := [0])
  }

  function Request0Requeued(): Queue {
    BarrierStarted().(head := [Proxy(BarRq), R0.(started := false)], driver := [R1], inFlight := 1)
  }

  function DrainEnded(): Queue {
    Request0Requeued().(driver := [], inFlight := 0, completed := {1},
                        ordseq := {Started, Drain, PreFlush, PostFlush}, reports := [0, 0])
  }

  lemma {:induction false} BarrierStarts()
    ensures Enabled(BeforeBarrier(), AddAction(BARRIER, Back, []))
    ensures Exec(BeforeBarrier(), AddAction(BARRIER, Back, [])) == BarrierAdded()
    ensures Peek(BarrierAdded()) == BarrierStarted()
  {
    var q := BeforeBarrier();
    assert NewRequest(q, BARRIER).(soft := true) == B2;
    assert Add(q, BARRIER, Back, []).head == [] + [B2];
    var m := BeginOrdered(BarrierAdded(), BAR_ONLY);
    assert m.head == [Proxy(BarRq)];
  }

  lemma {:induction false} RequeueGoesBehind()
    ensures Requeue(BarrierStarted(), 0) == Request0Requeued()
  {
    var q := BarrierStarted();
    assert Remove(q.driver, 0) == [R1];
    var r' := R0.(started := false, soft := true);
    assert r' == R0.(started := false);
    assert RequeuePos(q, [], 6) == 0;
    assert RequeuePos(q.(driver := [R1], inFlight := 1), q.head, 6) == 1;
    assert InsertAt(q.head, 1, r') == [Proxy(BarRq), R0.(started := false)];
  }

  lemma {:induction false} DrainEndsEarly()
    ensures Complete(Request0Requeued(), 0, 0) == DrainEnded()
    ensures var q := Start(Peek(DrainEnded()), 0);
            q.driver == [Proxy(BarRq).(started := true)] && q.origBar == B2 && q.completed == {1}
    ensures Peek(DrainEnded()).head[0].started
  {
    var q := Request0Requeued();
    assert Remove(q.driver, 0) == [];
    assert FirstClear(q.ordseq + {Drain}) == Bar;
    assert DoOrdered(DrainEnded()).1 == Issue;
  }

  lemma {:induction false} ReachTwoIssued(s: Submission, place: Where)
    ensures Reaches(BAR_ONLY, s, place, BeforeBarrier().(ordcolor := false))
  {
    var q0 := InitialQueue(Some(BAR_ONLY));
    ReachInitial(BAR_ONLY, s, place);
    ReachIssued(s, place, q0, FS, Back);
    ReachIssued(s, place, Issued(q0, FS), FS, Back);
    assert Issued(Issued(q0, FS), FS) == BeforeBarrier().(ordcolor := false);
  }

  /** Requests 0 and 1 are issued, then a special barrier is issued and completes. */
  lemma {:induction false} ReachBeforeBarrier(s: Submission, place: Where)
    requires !s.fs && s.hard
    ensures Reaches(BAR_ONLY, s, place, BeforeBarrier())
  {
    ReachTwoIssued(s, place);
    ReachIssued(s, place, BeforeBarrier().(ordcolor := false), s, place);
    var q := Issued(BeforeBarrier().(ordcolor := false), s);
    assert Remove(q.driver, 2) == [R0, R1];
    ReachStep(BAR_ONLY, s, place, q, CompleteAction(2, 0));
  }

  /** Barrier 2 starts its drain, request 0 is put back and request 1 completes. */
  lemma {:induction false} ReachDrainEnded(s: Submission, place: Where)
    requires !s.fs && s.hard
    ensures Reaches(BAR_ONLY, s, place, DrainEnded())
  {
    ReachBeforeBarrier(s, place);
    BarrierStarts();
    ReachStep(BAR_ONLY, s, place, BeforeBarrier(), AddAction(BARRIER, Back, []));
    ReachStep(BAR_ONLY, s, place, BarrierAdded(), PeekAction);
    RequeueGoesBehind();
    ReachStep(BAR_ONLY, s, place, BarrierStarted(), RequeueAction(0));
    DrainEndsEarly();
    ReachStep(BAR_ONLY, s, place, Request0Requeued(), CompleteAction(0, 0));
  }

  /**
   A special request that carries the barrier flag flips the colour without opening an
   epoch: request 0 is put back behind the BAR proxy, the drain ends with request 1, and
   the proxy goes out before request 0 has completed.
   */
  lemma {:induction false} SpecialBarrierBreaksOrder(s: Submission, place: Where) returns (q: Queue)
    requires !s.fs && s.hard
    ensures Reaches(BAR_ONLY, s, place, q)
    ensures !BarrierOrder(q)
  {
    ReachDrainEnded(s, place);
    DrainEndsEarly();
    ReachStep(BAR_ONLY, s, place, DrainEnded(), PeekAction);
    ReachStep(BAR_ONLY, s, place, Peek(DrainEnded()), StartAction(0));
    q := Start(Peek(DrainEnded()), 0);
    ProxyTooEarly(q);
  }

  lemma {:induction false} ProxyTooEarly(q: Queue)
    requires q.driver != [] && q.driver[0].IsProxy() && 0 < q.origBar.id && 0 !in q.completed
    ensures !BarrierOrder(q)
  {
    assert q.driver[0] in q.driver && 0 !in q.completed;
  }

  /** Adding a request to an empty list, peeking at it and starting it. */
  lemma {:induction false} ReachIssued(s: Submission, place: Where, q: Queue, s': Submission, place': Where)
    requires Reaches(BAR_ONLY, s, place, q)
    requires q.head == [] && q.sorted == [] && q.ordseq == {}
    requires !(s'.fs && s'.hard) && Placement(s', place') != Sort
    requires Allowed(AddAction(s', place', []), s, place)
    ensures Reaches(BAR_ONLY, s, place, Issued(q, s'))
  {
    IssueSteps(q, s', place');
    var q1 := Add(q, s', place', []);
    ReachStep(BAR_ONLY, s, place, q, AddAction(s', place', []));
    ReachStep(BAR_ONLY, s, place, q1, PeekAction);
    ReachStep(BAR_ONLY, s, place, Peek(q1), StartAction(0));
  }

  function Issued(q: Queue, s: Submission): Queue {
    var r := NewRequest(q, s).(soft := true, started := true);
    Register(q, s).(head := [], driver := q.driver + [r],
                    inFlight := q.inFlight + if s.fs then 1 else 0)
  }

  lemma {:induction false} AddToEmpty(q: Queue, s: Submission, place: Where)
    requires q.head == [] && q.sorted == [] && !(s.fs && s.hard) && Placement(s, place) != Sort
    ensures Add(q, s, place, []) == Register(q, s).(head := [NewRequest(q, s).(soft := true)])
  {
    assert Add(q, s, place, []).head == [NewRequest(q, s).(soft := true)];
  }

  lemma {:induction false} IssueSteps(q: Queue, s: Submission, place: Where)
    requires q.head == [] && q.sorted == [] && q.ordseq == {}
    requires !(s.fs && s.hard) && Placement(s, place) != Sort
    ensures var q1 := Register(q, s).(head := [NewRequest(q, s).(soft := true)]);
            && Add(q, s, place, []) == q1
            && Peek(q1).head != [] && Peek(q1).head[0].started
            && Start(Peek(q1), 0) == Issued(q, s)
  {
    AddToEmpty(q, s, place);
    PeekAndStart(q, s);
  }

  lemma {:induction false} PeekAndStart(q: Queue, s: Submission)
    requires q.ordseq == {} && !(s.fs && s.hard)
    ensures var q1 := Register(q, s).(head := [NewRequest(q, s).(soft := true)]);
            && Peek(q1).head != [] && Peek(q1).head[0].started
            && Start(Peek(q1), 0) == Issued(q, s)
  {
    var r := NewRequest(q, s).(soft := true);
    var q1 := Register(q, s).(head := [r]);
    assert DoOrdered(q1) == (q1, Issue);
    assert Peek(q1).head == [r.(started := true)];
    assert Remove(Peek(q1).head, 0) == [];
  }
}
