/**
 The invariant of the barrier protocol, kept by every action of a disciplined run.
 */
module BarrierProof {
  import opened Wrappers
  import opened BarrierModel

  // ---------- Sequences ----------

  lemma {:induction false} RemoveMembers<T>(s: seq<T>, i: nat)
    requires i < |s|
    ensures forall x :: x in Remove(s, i) ==> x in s
    ensures forall x :: x in s ==> x == s[i] || x in Remove(s, i)
  {
    forall x | x in s ensures x == s[i] || x in Remove(s, i) {
      var j :| 0 <= j < |s| && s[j] == x;
      if j < i {
        assert Remove(s, i)[j] == x;
      } else if j > i {
        assert Remove(s, i)[j - 1] == x;
      }
    }
  }

  lemma {:induction false} InsertMembers<T>(s: seq<T>, p: nat, y: T)
    requires p <= |s|
    ensures forall x :: x in InsertAt(s, p, y) <==> x == y || x in s
  {
    assert s == s[..p] + s[p..];
  }

  // ---------- The invariant ----------

  predicate LogOk(added: seq<Request>, barriers: seq<nat>) {
    && (forall i :: 0 <= i < |added| ==>
          && added[i].kind == Fs && added[i].id == i
          && added[i].epoch <= |barriers|
          && (added[i].hard ==> added[i].epoch < |barriers|))
    && (forall i, j :: 0 <= i < j < |added| ==>
          && added[i].epoch <= added[j].epoch
          && (added[i].hard ==> added[i].epoch < added[j].epoch))
    && (forall k :: 0 <= k < |barriers| ==>
          && barriers[k] < |added|
          && added[barriers[k]].hard && added[barriers[k]].epoch == k)
  }

  /** What the log of additions and the log of endings agree on. */
  predicate HistoryOk(q: Queue) {
    && LogOk(q.added, q.barriers)
    && q.ordcolor == (|q.barriers| % 2 == 1)
    && |q.ends| <= |q.barriers|
    && (forall k :: 0 <= k < |q.ends| ==>
          && q.ends[k].id == q.barriers[k] && q.barriers[k] in q.completed
          && q.ends[k].error == FirstError(q.ends[k].reports))
    && (forall i :: i in q.completed ==>
          i < |q.added| && (q.added[i].hard ==> q.added[i].epoch < |q.ends|))
  }

  function FirstError(reports: seq<int>): int {
    if reports == [] then 0
    else if reports[0] != 0 then reports[0]
    else FirstError(reports[1..])
  }

  /** A copy of an fs request agrees with the log, and its colour is the parity of its epoch. */
  predicate Known(q: Queue, r: Request) {
    && r.kind == Fs
    && r.id < |q.added|
    && q.added[r.id].epoch == r.epoch
    && q.added[r.id].hard == r.hard
    && r.color == (r.epoch % 2 == 1)
  }

  predicate HeadMember(q: Queue, r: Request) {
    && (r.kind == Fs ==>
          && Known(q, r)
          && |q.ends| <= r.epoch
          && (q.ordseq != {} && r.epoch == |q.ends| ==> r.soft && !r.hard && Drain !in q.ordseq)
          && (r.started ==> !r.hard && r.epoch == |q.ends|))
    && (r.IsProxy() && r.started ==> ProxyStage(r.kind) == FirstClear(q.ordseq))
    && (r.kind != Fs ==> r.soft)
  }

  predicate SortedMember(q: Queue, r: Request) {
    Known(q, r) && !r.hard && !r.started && r.epoch == |q.barriers|
  }

  predicate DriverMember(q: Queue, r: Request) {
    && r.started
    && (r.kind == Fs ==> Known(q, r) && !r.hard && r.epoch == |q.ends| && Drain !in q.ordseq)
  }

  predicate MembersOk(q: Queue) {
    && (forall r :: r in q.head ==> HeadMember(q, r))
    && (forall r :: r in q.sorted ==> SortedMember(q, r))
    && (forall r :: r in q.driver ==> DriverMember(q, r))
  }

  /** The place of a request in the order of service; specials have none. */
  function Key(e: nat, r: Request): nat {
    match r.kind
    case Fs => 8 * r.epoch + (if r.hard then 1 else 0)
    case PreFlushRq => 8 * e + 2
    case BarRq => 8 * e + 3
    case PostFlushRq => 8 * e + 4
    case Special => 0
  }

  predicate Before(e: nat, a: Request, b: Request) {
    a.kind != Special && b.kind != Special ==>
      && Key(e, a) <= Key(e, b)
      && (Key(e, a) == Key(e, b) ==> a.kind == Fs && !a.hard)
  }

  predicate InOrder(e: nat, s: seq<Request>) {
    forall i, j :: 0 <= i < j < |s| ==> Before(e, s[i], s[j])
  }

  predicate Has(s: seq<Request>, k: Kind) {
    exists i :: 0 <= i < |s| && s[i].kind == k
  }

  predicate NoProxies(s: seq<Request>) {
    forall i :: 0 <= i < |s| ==> !s[i].IsProxy()
  }

  predicate OrigOk(q: Queue) {
    && Known(q, q.origBar) && q.origBar.hard && !q.origBar.started
    && q.origBar.epoch == |q.ends| < |q.barriers|
    && q.origBar.id == q.barriers[|q.ends|]
    && q.orderr == FirstError(q.reports)
  }

  predicate ProxyPlaced(q: Queue, k: Kind)
    requires k == PreFlushRq || k == BarRq || k == PostFlushRq
  {
    && (Has(q.head, k) || Has(q.driver, k) <==> ProxyStage(k) !in q.ordseq)
    && !(Has(q.head, k) && Has(q.driver, k))
  }

  predicate SequenceOk(q: Queue) {
    if q.ordseq == {} then NoProxies(q.head) && NoProxies(q.driver)
    else
      && Started in q.ordseq && FirstClear(q.ordseq) != Done && Done !in q.ordseq
      && OrigOk(q)
      && ProxyPlaced(q, PreFlushRq) && ProxyPlaced(q, BarRq) && ProxyPlaced(q, PostFlushRq)
      && (forall i :: 0 <= i < |q.driver| && q.driver[i].IsProxy() ==>
            ProxyStage(q.driver[i].kind) == FirstClear(q.ordseq))
      && (forall i, j :: 0 <= i < j < |q.driver| ==> !(q.driver[i].IsProxy() && q.driver[j].IsProxy()))
  }

  predicate Holds(s: seq<Request>, id: nat) {
    exists r :: r in s && r.kind == Fs && r.id == id
  }

  predicate LocatedAt(q: Queue, id: nat) {
    || id in q.completed
    || Holds(q.head, id)
    || Holds(q.sorted, id)
    || Holds(q.driver, id)
    || (q.ordseq != {} && q.origBar.id == id)
  }

  /** No request that was added is lost. */
  predicate NothingLost(q: Queue) {
    forall id :: 0 <= id < |q.added| ==> LocatedAt(q, id)
  }

  function FsCount(s: seq<Request>): nat {
    if s == [] then 0 else (if s[0].IsFs() then 1 else 0) + FsCount(s[1..])
  }

  /** A drain that is waited for has something whose completion looks at it again. */
  predicate DrainAwaited(q: Queue) {
    q.ordseq != {} && Drain !in q.ordseq ==>
      || q.inFlight != 0
      || (q.head != [] && SeqRank(q, q.head[0]) == Rank(Drain))
      || Has(q.driver, Special)
  }

  predicate Core(q: Queue) {
    && !q.bug && !q.warn && q.next.Some?
    && HistoryOk(q)
    && MembersOk(q)
    && InOrder(|q.ends|, q.head)
    && SequenceOk(q)
    && NothingLost(q)
    && q.inFlight == FsCount(q.driver)
  }

  predicate Inv(q: Queue) {
    Core(q) && DrainAwaited(q)
  }

  // ---------- Consequences of the invariant on one state ----------

  lemma {:induction false} FsCountAppend(s: seq<Request>, r: Request)
    ensures FsCount(s + [r]) == FsCount(s) + (if r.IsFs() then 1 else 0)
  {
    if s != [] {
      assert (s + [r])[1..] == s[1..] + [r];
      FsCountAppend(s[1..], r);
    }
  }

  lemma {:induction false} FsCountRemove(s: seq<Request>, i: nat)
    requires i < |s|
    ensures FsCount(s) == FsCount(Remove(s, i)) + (if s[i].IsFs() then 1 else 0)
  {
    if i == 0 {
      assert Remove(s, 0) == s[1..];
    } else {
      assert Remove(s, i)[1..] == Remove(s[1..], i - 1);
      FsCountRemove(s[1..], i - 1);
    }
  }

  lemma {:induction false} FsCountZero(s: seq<Request>)
    ensures FsCount(s) == 0 <==> forall i :: 0 <= i < |s| ==> !s[i].IsFs()
  {
    if s != [] {
      FsCountZero(s[1..]);
      assert forall i :: 0 < i < |s| ==> s[i] == s[1..][i - 1];
    }
  }

  /** The one bit of colour is enough: a request two epochs ahead is behind the next barrier. */
  lemma {:induction false} FarEpochShielded(q: Queue, i: nat) returns (j: nat)
    requires HistoryOk(q) && MembersOk(q) && InOrder(|q.ends|, q.head) && NothingLost(q)
    requires q.ordseq != {} && OrigOk(q)
    requires i < |q.head| && q.head[i].kind == Fs && q.head[i].epoch > |q.ends| + 1
    ensures j < i && q.head[j].kind == Fs && SeqRank(q, q.head[j]) == Rank(Done)
  {
    var e := |q.ends|;
    assert HeadMember(q, q.head[i]);
    assert q.added[q.head[i].id].epoch <= |q.barriers|;
    var b := q.barriers[e + 1];
    assert q.added[b].hard && q.added[b].epoch == e + 1;
    assert LocatedAt(q, b);
    assert !Holds(q.sorted, b);
    assert !Holds(q.driver, b);
    assert Holds(q.head, b);
    var r :| r in q.head && r.kind == Fs && r.id == b;
    j :| 0 <= j < |q.head| && q.head[j] == r;
    assert HeadMember(q, r);
    assert i < j ==> Before(e, q.head[i], q.head[j]);
  }

  /** The stage of an fs request at the front tells whether it precedes the barrier. */
  lemma {:induction false} FrontStage(q: Queue)
    requires HistoryOk(q) && MembersOk(q) && InOrder(|q.ends|, q.head) && NothingLost(q)
    requires q.ordseq != {} && OrigOk(q)
    requires q.head != [] && q.head[0].kind == Fs
    ensures q.head[0].epoch == |q.ends| ==> SeqRank(q, q.head[0]) == Rank(Drain)
    ensures q.head[0].epoch > |q.ends| ==> SeqRank(q, q.head[0]) == Rank(Done)
  {
    assert HeadMember(q, q.head[0]);
    if q.head[0].epoch > |q.ends| + 1 {
      var j := FarEpochShielded(q, 0);
    }
  }

  // ---------- Completing stages ----------

  /** A state in which the work of `stages` is over but their bits are still clear. */
  predicate Mid(q: Queue, stages: set<Stage>) {
    && !q.bug && !q.warn && q.next.Some?
    && HistoryOk(q)
    && (forall r :: r in q.head ==> HeadMember(q, r))
    && (forall r :: r in q.sorted ==> SortedMember(q, r))
    && (forall r :: r in q.driver ==> DriverMember(q, r))
    && InOrder(|q.ends|, q.head)
    && NothingLost(q)
    && q.inFlight == FsCount(q.driver)
    && q.ordseq != {} && Started in q.ordseq && Done !in q.ordseq
    && q.ordseq !! stages && stages !! {Started, Done}
    && OrigOk(q)
    && NoProxies(q.driver)
    && (forall r :: r in q.head && r.IsProxy() ==> !r.started)
    && (Has(q.head, PreFlushRq) <==> PreFlush !in q.ordseq + stages)
    && (Has(q.head, BarRq) <==> Bar !in q.ordseq + stages)
    && (Has(q.head, PostFlushRq) <==> PostFlush !in q.ordseq + stages)
    && (Drain in q.ordseq + stages ==>
          && (forall r :: r in q.head && r.kind == Fs ==> r.epoch > |q.ends|)
          && (forall r :: r in q.driver ==> r.kind != Fs))
    && (Drain !in q.ordseq + stages ==> DrainAwaited(q))
  }

  lemma {:induction false} FirstErrorAppend(s: seq<int>, x: int)
    ensures FirstError(s + [x]) == if FirstError(s) == 0 then x else FirstError(s)
  {
    if s != [] {
      assert (s + [x])[1..] == s[1..] + [x];
      FirstErrorAppend(s[1..], x);
    }
  }

  lemma {:induction false} CompleteSeqKeeps(q: Queue, stages: set<Stage>, error: int)
    requires Mid(q, stages)
    ensures Inv(CompleteSeq(q, stages, error))
  {
    var q1 := RecordError(q, error);
    FirstErrorAppend(q.reports, error);
    var q2 := q1.(ordseq := q1.ordseq + stages);
    assert NothingLost(q2) by {
      forall id | 0 <= id < |q2.added| ensures LocatedAt(q2, id) {
        assert LocatedAt(q, id);
      }
    }
    if FirstClear(q2.ordseq) == Done {
      EndOrigKeeps(q2);
    } else {
      MarkedKeeps(q, q2, stages);
    }
  }

  lemma {:induction false} MarkedKeeps(q: Queue, q2: Queue, stages: set<Stage>)
    requires Mid(q, stages)
    requires q2 == q.(ordseq := q.ordseq + stages, orderr := q2.orderr, reports := q2.reports)
    requires q2.orderr == FirstError(q2.reports)
    requires FirstClear(q2.ordseq) != Done && NothingLost(q2)
    ensures Inv(q2)
  {
    forall r | r in q2.head ensures HeadMember(q2, r) {
      assert HeadMember(q, r);
    }
    forall r | r in q2.sorted ensures SortedMember(q2, r) {
      assert SortedMember(q, r);
    }
    forall r | r in q2.driver ensures DriverMember(q2, r) {
      assert DriverMember(q, r);
    }
  }

  lemma {:induction false} EndOrigKeeps(q: Queue)
    requires !q.bug && !q.warn && q.next.Some?
    requires HistoryOk(q) && NothingLost(q) && OrigOk(q)
    requires forall r :: r in q.head ==>
               if r.kind == Fs then Known(q, r) && r.epoch > |q.ends| && !r.started else r.soft
    requires forall r :: r in q.sorted ==> SortedMember(q, r)
    requires forall r :: r in q.driver ==> r.started && r.kind != Fs
    requires NoProxies(q.driver) && InOrder(|q.ends|, q.head)
    requires !Has(q.head, PreFlushRq) && !Has(q.head, BarRq) && !Has(q.head, PostFlushRq)
    requires q.inFlight == FsCount(q.driver)
    ensures Inv(EndOrig(q))
  {
    var q' := EndOrig(q);
    forall id | 0 <= id < |q'.added| ensures LocatedAt(q', id) {
      assert LocatedAt(q, id);
    }
    assert InOrder(|q'.ends|, q'.head) by {
      forall i, j | 0 <= i < j < |q'.head| ensures Before(|q'.ends|, q'.head[i], q'.head[j]) {
        assert Before(|q.ends|, q.head[i], q.head[j]);
      }
    }
  }

  // ---------- The driver ----------

  lemma {:induction false} StillLocated(q: Queue, q': Queue)
    requires NothingLost(q) && q'.added == q.added
    requires q.completed <= q'.completed && q'.sorted == q.sorted
    requires q.ordseq != {} ==> q'.ordseq != {} && q'.origBar == q.origBar
    requires forall r :: r in q.head && r.kind == Fs ==>
               Holds(q'.head, r.id) || Holds(q'.driver, r.id) || r.id in q'.completed
    requires forall r :: r in q.driver && r.kind == Fs ==>
               Holds(q'.head, r.id) || Holds(q'.driver, r.id) || r.id in q'.completed
    ensures NothingLost(q')
  {
    forall id | 0 <= id < |q'.added| ensures LocatedAt(q', id) {
      assert LocatedAt(q, id);
    }
  }

  lemma {:induction false} InOrderRemove(e: nat, s: seq<Request>, i: nat)
    requires i < |s| && InOrder(e, s)
    ensures InOrder(e, Remove(s, i))
  {
    var t := Remove(s, i);
    forall a, b | 0 <= a < b < |t| ensures Before(e, t[a], t[b]) {
      assert Before(e, s[if a < i then a else a + 1], s[if b < i then b else b + 1]);
    }
  }

  lemma {:induction false} InOrderInsert(e: nat, s: seq<Request>, p: nat, r: Request)
    requires p <= |s| && InOrder(e, s)
    requires forall i :: 0 <= i < p ==> Before(e, s[i], r)
    requires forall i :: p <= i < |s| ==> Before(e, r, s[i])
    ensures InOrder(e, InsertAt(s, p, r))
  {
    var t := InsertAt(s, p, r);
    forall a, b | 0 <= a < b < |t| ensures Before(e, t[a], t[b]) {
      if a != p && b != p {
        assert Before(e, s[if a < p then a else a - 1], s[if b < p then b else b - 1]);
      }
    }
  }

  lemma {:induction false} HasRemove(s: seq<Request>, i: nat, k: Kind)
    requires i < |s|
    ensures Has(Remove(s, i), k) ==> Has(s, k)
    ensures s[i].kind != k ==> (Has(Remove(s, i), k) <==> Has(s, k))
  {
    RemoveMembers(s, i);
    if Has(Remove(s, i), k) {
      var j :| 0 <= j < |Remove(s, i)| && Remove(s, i)[j].kind == k;
      assert Remove(s, i)[j] in s;
    }
    if Has(s, k) && s[i].kind != k {
      var j :| 0 <= j < |s| && s[j].kind == k;
      assert s[j] in Remove(s, i);
    }
  }

  lemma {:induction false} HasInsert(s: seq<Request>, p: nat, r: Request, k: Kind)
    requires p <= |s|
    ensures Has(InsertAt(s, p, r), k) <==> Has(s, k) || r.kind == k
  {
    InsertMembers(s, p, r);
    if Has(InsertAt(s, p, r), k) {
      var j :| 0 <= j < |InsertAt(s, p, r)| && InsertAt(s, p, r)[j].kind == k;
      assert InsertAt(s, p, r)[j] == r || InsertAt(s, p, r)[j] in s;
    }
    if Has(s, k) {
      var j :| 0 <= j < |s| && s[j].kind == k;
      assert s[j] in InsertAt(s, p, r);
    }
    assert InsertAt(s, p, r)[p] == r;
  }

  lemma {:induction false} ProxyUnique(e: nat, s: seq<Request>, i: nat)
    requires i < |s| && InOrder(e, s) && s[i].IsProxy()
    ensures !Has(Remove(s, i), s[i].kind)
  {
    var t := Remove(s, i);
    forall j | 0 <= j < |t| ensures t[j].kind != s[i].kind {
      assert j < i ==> Before(e, s[j], s[i]);
      assert j >= i ==> Before(e, s[i], s[j + 1]);
    }
  }

  lemma {:induction false} StartKeeps(q: Queue, i: nat)
    requires Inv(q) && i < |q.head| && q.head[i].started
    ensures Inv(Start(q, i))
  {
    var r := q.head[i];
    var q' := Start(q, i);
    RemoveMembers(q.head, i);
    InOrderRemove(|q.ends|, q.head, i);
    FsCountAppend(q.driver, r);
    assert q'.driver[|q.driver|] == r;
    StillLocated(q, q');
    StartMembers(q, i);
    StartPlaces(q, i);
    StartAwaited(q, i);
  }

  lemma {:induction false} StartMembers(q: Queue, i: nat)
    requires MembersOk(q) && i < |q.head| && q.head[i].started
    ensures MembersOk(Start(q, i))
  {
    var q' := Start(q, i);
    RemoveMembers(q.head, i);
    forall x | x in q'.head ensures HeadMember(q', x) {
      assert HeadMember(q, x);
    }
    forall x | x in q'.driver ensures DriverMember(q', x) {
      assert HeadMember(q, q.head[i]);
      assert x in q.driver ==> DriverMember(q, x);
    }
    forall x | x in q'.sorted ensures SortedMember(q', x) {
      assert SortedMember(q, x);
    }
  }

  lemma {:induction false} StartAwaited(q: Queue, i: nat)
    requires Inv(q) && i < |q.head| && q.head[i].started
    ensures DrainAwaited(Start(q, i))
  {
    assert HeadMember(q, q.head[i]);
    HasAppend(q.driver, q.head[i], Special);
  }

  lemma {:induction false} StartPlaces(q: Queue, i: nat)
    requires Inv(q) && i < |q.head| && q.head[i].started
    ensures SequenceOk(Start(q, i))
  {
    var r := q.head[i];
    var q' := Start(q, i);
    assert HeadMember(q, r);
    RemoveMembers(q.head, i);
    if r.IsProxy() {
      ProxyUnique(|q.ends|, q.head, i);
    }
    assert q'.driver[|q.driver|] == r;
    forall k | k == PreFlushRq || k == BarRq || k == PostFlushRq
      ensures q.ordseq != {} ==> ProxyPlaced(q', k)
      ensures k == r.kind ==> !Has(q.driver, k)
    {
      HasRemove(q.head, i, k);
      HasAppend(q.driver, r, k);
      assert k == r.kind ==> Has(q.head, k);
    }
  }

  lemma {:induction false} HasAppend(s: seq<Request>, r: Request, k: Kind)
    ensures Has(s + [r], k) <==> Has(s, k) || r.kind == k
  {
    assert s + [r] == InsertAt(s, |s|, r);
    HasInsert(s, |s|, r, k);
  }

  lemma {:induction false} CompleteKeeps(q: Queue, i: nat, error: int)
    requires Inv(q) && i < |q.driver|
    ensures Inv(Complete(q, i, error))
  {
    var r := q.driver[i];
    assert DriverMember(q, r);
    RemoveMembers(q.driver, i);
    FsCountRemove(q.driver, i);
    if r.IsProxy() {
      CompleteProxyKeeps(q, i, error);
    } else {
      CompleteOtherKeeps(q, i, error);
    }
  }

  lemma {:induction false} CompleteProxyKeeps(q: Queue, i: nat, error: int)
    requires Inv(q) && i < |q.driver| && q.driver[i].IsProxy()
    ensures Inv(Complete(q, i, error))
  {
    var r := q.driver[i];
    var q2 := ElvCompleted(q.(driver := Remove(q.driver, i)), r);
    ProxyReleased(q, i, q2);
    ProxyDoneIsMid(q, i, q2);
    CompleteSeqKeeps(q2, {ProxyStage(r.kind)}, error);
  }

  /** While a proxy is out the current stage is its own, so no drain ends. */
  lemma {:induction false} ProxyReleased(q: Queue, i: nat, q2: Queue)
    requires Core(q) && i < |q.driver| && q.driver[i].IsProxy()
    requires q2 == ElvCompleted(q.(driver := Remove(q.driver, i)), q.driver[i])
    ensures q2 == q.(driver := Remove(q.driver, i), inFlight := q2.inFlight)
    ensures q2.inFlight == FsCount(q2.driver)
    ensures NoProxies(q2.driver)
    ensures NothingLost(q2)
  {
    NoDrainEnds(q, i, q2);
    ProxyWithout(q, i);
    StillLocated(q, q2);
  }

  lemma {:induction false} NoDrainEnds(q: Queue, i: nat, q2: Queue)
    requires Core(q) && i < |q.driver| && q.driver[i].IsProxy()
    requires q2 == ElvCompleted(q.(driver := Remove(q.driver, i)), q.driver[i])
    ensures q2 == q.(driver := Remove(q.driver, i), inFlight := q2.inFlight)
    ensures q2.inFlight == FsCount(q2.driver)
  {
    assert DriverMember(q, q.driver[i]);
    FsCountRemove(q.driver, i);
  }

  lemma {:induction false} ProxyWithout(q: Queue, i: nat)
    requires Core(q) && i < |q.driver| && q.driver[i].IsProxy()
    ensures NoProxies(Remove(q.driver, i))
    ensures forall r :: r in q.driver && r.kind == Fs ==> Holds(Remove(q.driver, i), r.id)
  {
    RemoveMembers(q.driver, i);
    forall j | 0 <= j < |q.driver| - 1 ensures !Remove(q.driver, i)[j].IsProxy() {
      assert Remove(q.driver, i)[j] == q.driver[if j < i then j else j + 1];
    }
  }

  lemma {:induction false} ProxyDoneIsMid(q: Queue, i: nat, q2: Queue)
    requires Core(q) && i < |q.driver| && q.driver[i].IsProxy()
    requires q2 == q.(driver := Remove(q.driver, i), inFlight := q2.inFlight)
    requires q2.inFlight == FsCount(q2.driver) && NoProxies(q2.driver) && NothingLost(q2)
    ensures Mid(q2, {ProxyStage(q.driver[i].kind)})
  {
    var s := ProxyStage(q.driver[i].kind);
    assert FirstClear(q.ordseq) == s;
    RemoveMembers(q.driver, i);
    ProxyDonePlaces(q, i);
    forall x | x in q2.head ensures HeadMember(q2, x) && (x.IsProxy() ==> !x.started) {
      assert HeadMember(q, x);
      assert Has(q.head, x.kind);
    }
    forall x | x in q2.driver ensures DriverMember(q2, x) {
      assert DriverMember(q, x);
    }
    forall x | x in q2.sorted ensures SortedMember(q2, x) {
      assert SortedMember(q, x);
    }
  }

  lemma {:induction false} ProxyDonePlaces(q: Queue, i: nat)
    requires SequenceOk(q) && i < |q.driver| && q.driver[i].IsProxy()
    ensures var s := ProxyStage(q.driver[i].kind);
            && (Has(q.head, PreFlushRq) <==> PreFlush !in q.ordseq + {s})
            && (Has(q.head, BarRq) <==> Bar !in q.ordseq + {s})
            && (Has(q.head, PostFlushRq) <==> PostFlush !in q.ordseq + {s})
            && !Has(q.head, q.driver[i].kind)
  {
    var k := q.driver[i].kind;
    assert Has(q.driver, k);
    assert ProxyPlaced(q, k);
    forall k' | (k' == PreFlushRq || k' == BarRq || k' == PostFlushRq) && k' != k
      ensures !Has(q.driver, k')
    {
      forall j | 0 <= j < |q.driver| ensures q.driver[j].kind != k' {
        assert j == i || !q.driver[j].IsProxy();
      }
    }
  }

  lemma {:induction false} DrainOverIsMid(q: Queue)
    requires Core(q) && q.ordseq != {} && DrainIsOver(q)
    ensures Mid(q, {Drain})
  {
    FsCountZero(q.driver);
    forall r | r in q.head && r.kind == Fs ensures r.epoch > |q.ends| {
      assert HeadMember(q, r);
      if r.epoch == |q.ends| {
        var j :| 0 <= j < |q.head| && q.head[j] == r;
        assert 0 < j ==> Before(|q.ends|, q.head[0], q.head[j]);
        assert HeadMember(q, q.head[0]);
        if q.head[0].kind == Fs {
          FrontStage(q);
        }
      }
    }
    forall r | r in q.head && r.IsProxy() ensures !r.started {
      assert HeadMember(q, r);
    }
    forall k | k == PreFlushRq || k == BarRq || k == PostFlushRq ensures !Has(q.driver, k) {
    }
  }

  lemma {:induction false} CompleteOtherKeeps(q: Queue, i: nat, error: int)
    requires Inv(q) && i < |q.driver| && !q.driver[i].IsProxy()
    ensures Inv(Complete(q, i, error))
  {
    var q1 := Released(q, i);
    ReleasedIsCore(q, i);
    if q1.ordseq != {} && DrainIsOver(q1) {
      DrainOverIsMid(q1);
      CompleteSeqKeeps(q1, {Drain}, 0);
    } else {
      NotOverIsAwaited(q1);
    }
  }

  function Released(q: Queue, i: nat): Queue
    requires i < |q.driver|
  {
    var r := q.driver[i];
    q.(driver := Remove(q.driver, i),
       completed := if r.kind == Fs then q.completed + {r.id} else q.completed,
       inFlight := if r.Accounted() then q.inFlight - 1 else q.inFlight)
  }

  lemma {:induction false} NotOverIsAwaited(q: Queue)
    requires q.ordseq == {} || !DrainIsOver(q)
    requires Started in q.ordseq || q.ordseq == {}
    ensures DrainAwaited(q)
  {
  }

  lemma {:induction false} ReleasedIsCore(q: Queue, i: nat)
    requires Core(q) && i < |q.driver| && !q.driver[i].IsProxy()
    ensures Core(Released(q, i))
  {
    var q1 := Released(q, i);
    var r := q.driver[i];
    assert DriverMember(q, r);
    RemoveMembers(q.driver, i);
    FsCountRemove(q.driver, i);
    StillLocated(q, q1);
    SameMembers(q, q1);
    ReleasedSequence(q, i);
  }

  lemma {:induction false} SameMembers(q: Queue, q1: Queue)
    requires MembersOk(q)
    requires q1.added == q.added && q1.barriers == q.barriers && q1.ends == q.ends && q1.ordseq == q.ordseq
    requires q1.head == q.head && q1.sorted == q.sorted
    requires forall r :: r in q1.driver ==> r in q.driver
    ensures MembersOk(q1)
  {
    forall x | x in q1.head ensures HeadMember(q1, x) {
      assert HeadMember(q, x);
    }
    forall x | x in q1.driver ensures DriverMember(q1, x) {
      assert DriverMember(q, x);
    }
    forall x | x in q1.sorted ensures SortedMember(q1, x) {
      assert SortedMember(q, x);
    }
  }

  lemma {:induction false} ReleasedSequence(q: Queue, i: nat)
    requires SequenceOk(q) && i < |q.driver| && !q.driver[i].IsProxy()
    ensures SequenceOk(Released(q, i))
  {
    forall k | k == PreFlushRq || k == BarRq || k == PostFlushRq
      ensures Has(Remove(q.driver, i), k) <==> Has(q.driver, k)
    {
      HasRemove(q.driver, i, k);
    }
  }

  // ---------- Requeueing ----------

  lemma {:induction false} RequeueKeeps(q: Queue, i: nat)
    requires Inv(q) && i < |q.driver|
    ensures Inv(Requeue(q, i))
  {
    var r := q.driver[i];
    var r' := r.(started := false, soft := true);
    var q' := Requeue(q, i);
    var p := RequeuePlace(q, i);
    assert DriverMember(q, r);
    RemoveMembers(q.driver, i);
    InsertMembers(q.head, p, r');
    FsCountRemove(q.driver, i);
    assert q'.head[p] == r';
    StillLocated(q, q');
    RequeueMembers(q, i);
    RequeueSequence(q, i);
    RequeueOrder(q, i);
    RequeueAwaited(q, i);
  }

  /** The position at which Requeue puts request i of the driver. */
  function RequeuePlace(q: Queue, i: nat): (p: nat)
    requires i < |q.driver|
    ensures p <= |q.head|
    ensures Requeue(q, i).head
            == InsertAt(q.head, p, q.driver[i].(started := false, soft := true))
  {
    var r' := q.driver[i].(started := false, soft := true);
    var q1 := q.(driver := Remove(q.driver, i), inFlight := Requeue(q, i).inFlight);
    if q.ordseq == {} then 0 else RequeuePos(q1, q.head, SeqRank(q1, r'))
  }

  lemma {:induction false} RequeueMembers(q: Queue, i: nat)
    requires MembersOk(q) && HistoryOk(q) && i < |q.driver|
    ensures MembersOk(Requeue(q, i))
  {
    var r := q.driver[i];
    var q' := Requeue(q, i);
    assert DriverMember(q, r);
    RemoveMembers(q.driver, i);
    InsertMembers(q.head, RequeuePlace(q, i), r.(started := false, soft := true));
    forall x | x in q'.head ensures HeadMember(q', x) {
      assert x in q.head ==> HeadMember(q, x);
    }
    forall x | x in q'.driver ensures DriverMember(q', x) {
      assert DriverMember(q, x);
    }
    forall x | x in q'.sorted ensures SortedMember(q', x) {
      assert SortedMember(q, x);
    }
  }

  lemma {:induction false} RequeueSequence(q: Queue, i: nat)
    requires SequenceOk(q) && i < |q.driver|
    ensures SequenceOk(Requeue(q, i))
  {
    var r := q.driver[i];
    var q' := Requeue(q, i);
    var r' := r.(started := false, soft := true);
    assert q'.driver == Remove(q.driver, i);
    forall j | 0 <= j < |q'.driver|
      ensures q'.driver[j] == q.driver[if j < i then j else j + 1]
    {
    }
    if q.ordseq == {} {
      assert !r.IsProxy();
    } else {
      forall k | k == PreFlushRq || k == BarRq || k == PostFlushRq
        ensures ProxyPlaced(q', k)
      {
        assert ProxyPlaced(q, k);
        assert k == r.kind ==> Has(q.driver, k);
        HasRemove(q.driver, i, k);
        HasInsert(q.head, RequeuePlace(q, i), r', k);
        if k == r.kind {
          forall j | 0 <= j < |q'.driver| ensures q'.driver[j].kind != k {
            assert !q'.driver[j].IsProxy();
          }
        }
      }
    }
  }

  lemma {:induction false} RequeueAwaited(q: Queue, i: nat)
    requires Inv(q) && i < |q.driver|
    ensures DrainAwaited(Requeue(q, i))
  {
    var r := q.driver[i];
    var q' := Requeue(q, i);
    assert DriverMember(q, r);
    if q.ordseq != {} && Drain !in q.ordseq {
      assert !r.IsProxy();
      assert SeqRank(q', r) == Rank(Drain);
      assert RequeuePlace(q, i) == 0;
      assert q'.head[0] == r.(started := false, soft := true);
    }
  }

  lemma {:induction false} RequeueOrder(q: Queue, i: nat)
    requires Core(q) && i < |q.driver|
    ensures InOrder(|q.ends|, Requeue(q, i).head)
  {
    var r' := q.driver[i].(started := false, soft := true);
    var p := RequeuePlace(q, i);
    if q.driver[i].IsProxy() {
      assert Has(q.driver, r'.kind);
      RequeueProxyOrder(q, r', p);
    } else {
      RequeueOtherOrder(q, i);
    }
    InOrderInsert(|q.ends|, q.head, p, r');
  }

  lemma {:induction false} RequeueOtherOrder(q: Queue, i: nat)
    requires MembersOk(q) && i < |q.driver| && !q.driver[i].IsProxy()
    requires q.ordseq != {} ==> OrigOk(q)
    ensures RequeuePlace(q, i) == 0
    ensures forall j :: 0 <= j < |q.head| ==>
              Before(|q.ends|, q.driver[i].(started := false, soft := true), q.head[j])
  {
    assert DriverMember(q, q.driver[i]);
    forall j | 0 <= j < |q.head|
      ensures Before(|q.ends|, q.driver[i].(started := false, soft := true), q.head[j])
    {
      assert HeadMember(q, q.head[j]);
    }
  }

  /** A proxy put back by its stage lands behind only specials and earlier stages. */
  lemma {:induction false} RequeueProxyOrder(q: Queue, r: Request, p: nat)
    requires Core(q) && q.ordseq != {} && r.IsProxy() && !Has(q.head, r.kind)
    requires p <= |q.head|
    requires forall j :: 0 <= j < p ==> SeqRank(q, q.head[j]) < SeqRank(q, r)
    requires p < |q.head| ==> SeqRank(q, r) <= SeqRank(q, q.head[p])
    ensures forall j :: 0 <= j < p ==> Before(|q.ends|, q.head[j], r)
    ensures forall j :: p <= j < |q.head| ==> Before(|q.ends|, r, q.head[j])
  {
    forall j | 0 <= j < p ensures Before(|q.ends|, q.head[j], r) {
      assert HeadMember(q, q.head[j]);
      if q.head[j].kind == Fs && q.head[j].epoch > |q.ends| + 1 {
        var b := FarEpochShielded(q, j);
      }
    }
    forall j | p <= j < |q.head| ensures Before(|q.ends|, r, q.head[j]) {
      assert HeadMember(q, q.head[p]);
      assert p < j ==> Before(|q.ends|, q.head[p], q.head[j]);
    }
  }

  // ---------- Peeking ----------

  function MarkFront(q: Queue): Queue
    requires q.head != []
  {
    q.(head := [q.head[0].(started := true)] + q.head[1..])
  }

  lemma {:induction false} MarkKeeps(q: Queue)
    requires Inv(q) && q.head != []
    requires q.head[0].kind == Fs ==> !q.head[0].hard && q.head[0].epoch == |q.ends|
    requires q.head[0].IsProxy() ==> ProxyStage(q.head[0].kind) == FirstClear(q.ordseq)
    ensures Inv(MarkFront(q))
  {
    MarkMembers(q);
    MarkPlaces(q);
    StillLocated(q, MarkFront(q));
  }

  /** The order, the kinds and the ids in the queue stay what they were. */
  lemma {:induction false} MarkPlaces(q: Queue)
    requires q.head != [] && InOrder(|q.ends|, q.head)
    ensures InOrder(|q.ends|, MarkFront(q).head)
    ensures forall k :: Has(MarkFront(q).head, k) <==> Has(q.head, k)
    ensures forall r :: r in q.head && r.kind == Fs ==> Holds(MarkFront(q).head, r.id)
  {
    var q' := MarkFront(q);
    assert forall j :: 0 < j < |q.head| ==> q'.head[j] == q.head[j];
    assert InOrder(|q.ends|, q'.head) by {
      forall i, j | 0 <= i < j < |q'.head| ensures Before(|q.ends|, q'.head[i], q'.head[j]) {
        assert Before(|q.ends|, q.head[i], q.head[j]);
      }
    }
    assert forall k :: Has(q'.head, k) <==> Has(q.head, k) by {
      assert forall j :: 0 <= j < |q.head| ==> q'.head[j].kind == q.head[j].kind;
    }
    forall r | r in q.head && r.kind == Fs ensures Holds(q'.head, r.id) {
      var j :| 0 <= j < |q.head| && q.head[j] == r;
      assert q'.head[j] in q'.head;
    }
  }

  lemma {:induction false} MarkMembers(q: Queue)
    requires MembersOk(q) && q.head != []
    requires q.head[0].kind == Fs ==> !q.head[0].hard && q.head[0].epoch == |q.ends|
    requires q.head[0].IsProxy() ==> ProxyStage(q.head[0].kind) == FirstClear(q.ordseq)
    ensures MembersOk(MarkFront(q))
  {
    var q' := MarkFront(q);
    forall x | x in q'.head ensures HeadMember(q', x) {
      assert HeadMember(q, q.head[0]);
      assert x in q.head[1..] ==> HeadMember(q, x);
    }
    forall x | x in q'.driver ensures DriverMember(q', x) {
      assert DriverMember(q, x);
    }
    forall x | x in q'.sorted ensures SortedMember(q', x) {
      assert SortedMember(q, x);
    }
  }

  /** Between sequences the oldest open barrier waits in the queue. */
  lemma {:induction false} OldestBarrierWaits(q: Queue) returns (j: nat)
    requires Core(q) && q.ordseq == {} && |q.ends| < |q.barriers|
    ensures j < |q.head| && q.head[j].kind == Fs && q.head[j].id == q.barriers[|q.ends|]
  {
    var b := q.barriers[|q.ends|];
    assert LocatedAt(q, b);
    assert !Holds(q.sorted, b) && !Holds(q.driver, b);
    var r :| r in q.head && r.kind == Fs && r.id == b;
    j :| 0 <= j < |q.head| && q.head[j] == r;
  }

  /** Between sequences the fs request at the front belongs to the oldest open epoch. */
  lemma {:induction false} FrontIsCurrent(q: Queue)
    requires Core(q) && q.ordseq == {} && q.head != [] && q.head[0].kind == Fs
    ensures q.head[0].epoch == |q.ends|
  {
    assert HeadMember(q, q.head[0]);
    if |q.ends| < |q.barriers| {
      var j := OldestBarrierWaits(q);
      assert HeadMember(q, q.head[j]);
      assert j > 0 ==> Before(|q.ends|, q.head[0], q.head[j]);
    }
  }

  lemma {:induction false} PeekKeeps(q: Queue)
    requires Inv(q)
    ensures Inv(Peek(q))
  {
    if q.head != [] {
      var rq := q.head[0];
      assert HeadMember(q, rq);
      if q.ordseq == {} {
        if rq.IsBarrier() {
          FrontIsCurrent(q);
          PeekBarrierKeeps(q);
        } else {
          if rq.kind == Fs {
            FrontIsCurrent(q);
          }
          MarkKeeps(q);
        }
      } else {
        PeekInSequenceKeeps(q);
      }
    }
  }

  lemma {:induction false} PeekInSequenceKeeps(q: Queue)
    requires Inv(q) && q.head != [] && q.ordseq != {}
    ensures Inv(Peek(q))
  {
    var rq := q.head[0];
    FrontVerdict(q);
    assert HeadMember(q, rq);
    if DoOrdered(q).1 == Issue {
      MarkKeeps(q);
    }
  }

  /** What blk_do_ordered decides during a sequence; the WARN_ON stays silent. */
  lemma {:induction false} FrontVerdict(q: Queue)
    requires Core(q) && q.head != [] && q.ordseq != {}
    ensures DoOrdered(q).0 == q
    ensures DoOrdered(q).1 == Issue <==>
              || q.head[0].kind == Special
              || (q.head[0].kind == Fs && q.head[0].epoch == |q.ends|)
              || (q.head[0].IsProxy() && ProxyStage(q.head[0].kind) == FirstClear(q.ordseq))
  {
    var rq := q.head[0];
    assert HeadMember(q, rq);
    if rq.kind == Fs {
      FrontStage(q);
    } else if rq.IsProxy() {
      assert Has(q.head, rq.kind);
      assert ProxyPlaced(q, rq.kind);
    }
  }

  lemma {:induction false} PeekBarrierKeeps(q: Queue)
    requires Inv(q) && q.ordseq == {} && q.head != []
    requires q.head[0].kind == Fs && q.head[0].hard && q.head[0].epoch == |q.ends|
    ensures Inv(Peek(q))
  {
    var o := q.next.value;
    var q1 := BeginOrdered(q, o);
    BeginIsMid(q, o);
    CompleteSeqKeeps(q1, Skipped(q1.ordered, q1.inFlight == 0), 0);
    var q' := StartOrdered(q, o);
    assert HeadMember(q, q.head[0]);
    if DoOrdered(q).1 == Issue {
      FirstProxyIsCurrent(q1.ordered);
      assert q'.head[0] == Proxies(q1.ordered)[0];
      MarkKeeps(q');
    }
  }

  lemma {:induction false} FirstProxyIsCurrent(m: Ordered)
    requires FirstClear({Started} + Skipped(m, true)) != Done
    ensures Proxies(m) != [] && Proxies(m)[0].IsProxy()
    ensures ProxyStage(Proxies(m)[0].kind) == FirstClear({Started} + Skipped(m, true))
  {
  }

  lemma {:induction false} BeginIsMid(q: Queue, o: Ordered)
    requires Inv(q) && q.ordseq == {} && q.head != []
    requires q.head[0].kind == Fs && q.head[0].hard && q.head[0].epoch == |q.ends|
    ensures var q1 := BeginOrdered(q, o); Mid(q1, Skipped(q1.ordered, q1.inFlight == 0))
  {
    var q1 := BeginOrdered(q, o);
    BeginMembers(q, o);
    BeginOrder(q, o);
    BeginLocated(q, o);
    BeginPlaces(q, o);
    BeginOrig(q, o);
    SkippedStages(q1.ordered, q1.inFlight == 0);
    FsCountZero(q1.driver);
  }

  lemma {:induction false} SkippedStages(m: Ordered, drained: bool)
    ensures var s := Skipped(m, drained);
            && s !! {Started, Done}
            && (Drain in s <==> drained)
            && (PreFlush in s <==> !m.preflush)
            && (Bar in s <==> !m.bar)
            && (PostFlush in s <==> !m.postflush)
  {
  }

  lemma {:induction false} BeginOrig(q: Queue, o: Ordered)
    requires Core(q) && q.ordseq == {} && q.head != []
    requires q.head[0].kind == Fs && q.head[0].hard && q.head[0].epoch == |q.ends|
    ensures OrigOk(BeginOrdered(q, o))
    ensures BeginOrdered(q, o).inFlight == q.inFlight
  {
    assert HeadMember(q, q.head[0]);
    assert q.added[q.barriers[|q.ends|]].epoch == |q.ends|;
  }

  lemma {:induction false} BeginMembers(q: Queue, o: Ordered)
    requires Core(q) && q.ordseq == {} && q.head != []
    requires q.head[0].kind == Fs && q.head[0].hard && q.head[0].epoch == |q.ends|
    ensures var q1 := BeginOrdered(q, o);
            && MembersOk(q1)
            && (forall r :: r in q1.head && r.IsProxy() ==> !r.started)
            && (forall r :: r in q1.head && r.kind == Fs ==> r.epoch > |q1.ends|)
  {
    var q1 := BeginOrdered(q, o);
    forall r | r in q1.head
      ensures HeadMember(q1, r)
      ensures r.IsProxy() ==> !r.started
      ensures r.kind == Fs ==> r.epoch > |q1.ends|
    {
      if r in q.head[1..] {
        var j :| 0 < j < |q.head| && q.head[j] == r;
        assert HeadMember(q, r);
        assert Before(|q.ends|, q.head[0], q.head[j]);
      } else {
        assert r in Proxies(q1.ordered);
      }
    }
    forall r | r in q1.driver ensures DriverMember(q1, r) {
      assert DriverMember(q, r);
    }
    forall r | r in q1.sorted ensures SortedMember(q1, r) {
      assert SortedMember(q, r);
    }
  }

  lemma {:induction false} BeginOrder(q: Queue, o: Ordered)
    requires InOrder(|q.ends|, q.head) && NoProxies(q.head) && q.head != []
    requires q.head[0].kind == Fs && q.head[0].hard && q.head[0].epoch == |q.ends|
    ensures InOrder(|q.ends|, BeginOrdered(q, o).head)
  {
    var e := |q.ends|;
    var ps := Proxies(Masked(o, q.head[0].empty));
    var t := q.head[1..];
    forall i, j | 0 <= i < |ps| && 0 <= j < |t| ensures Before(e, ps[i], t[j]) {
      assert Before(e, q.head[0], q.head[j + 1]);
    }
    forall i, j | 0 <= i < j < |t| ensures Before(e, t[i], t[j]) {
      assert Before(e, q.head[i + 1], q.head[j + 1]);
    }
    InOrderConcat(e, ps, t);
  }

  lemma {:induction false} InOrderConcat(e: nat, s: seq<Request>, t: seq<Request>)
    requires InOrder(e, s) && InOrder(e, t)
    requires forall i, j :: 0 <= i < |s| && 0 <= j < |t| ==> Before(e, s[i], t[j])
    ensures InOrder(e, s + t)
  {
    var u := s + t;
    forall i, j | 0 <= i < j < |u| ensures Before(e, u[i], u[j]) {
      if |s| <= i {
        assert Before(e, t[i - |s|], t[j - |s|]);
      } else if |s| <= j {
        assert Before(e, s[i], t[j - |s|]);
      }
    }
  }

  lemma {:induction false} BeginLocated(q: Queue, o: Ordered)
    requires NothingLost(q) && q.ordseq == {} && q.head != [] && q.head[0].kind == Fs
    ensures NothingLost(BeginOrdered(q, o))
  {
    var q1 := BeginOrdered(q, o);
    forall id | 0 <= id < |q1.added| ensures LocatedAt(q1, id) {
      assert LocatedAt(q, id);
      if Holds(q.head, id) && q.head[0].id != id {
        var r :| r in q.head && r.kind == Fs && r.id == id;
        assert r in q.head[1..];
        assert r in q1.head;
      }
    }
  }

  lemma {:induction false} BeginPlaces(q: Queue, o: Ordered)
    requires NoProxies(q.head) && q.head != []
    ensures var q1 := BeginOrdered(q, o);
            && (Has(q1.head, PreFlushRq) <==> q1.ordered.preflush)
            && (Has(q1.head, BarRq) <==> q1.ordered.bar)
            && (Has(q1.head, PostFlushRq) <==> q1.ordered.postflush)
  {
    var m := Masked(o, q.head[0].empty);
    ProxiesHave(m);
    forall k | k == PreFlushRq || k == BarRq || k == PostFlushRq
      ensures Has(Proxies(m) + q.head[1..], k) <==> Has(Proxies(m), k)
    {
      HasConcat(Proxies(m), q.head[1..], k);
    }
  }

  lemma {:induction false} HasConcat(s: seq<Request>, t: seq<Request>, k: Kind)
    ensures Has(s + t, k) <==> Has(s, k) || Has(t, k)
  {
    var u := s + t;
    if Has(s, k) {
      var i :| 0 <= i < |s| && s[i].kind == k;
      assert u[i].kind == k;
    }
    if Has(t, k) {
      var i :| 0 <= i < |t| && t[i].kind == k;
      assert u[|s| + i].kind == k;
    }
  }

  lemma {:induction false} ProxiesHave(m: Ordered)
    ensures Has(Proxies(m), PreFlushRq) <==> m.preflush
    ensures Has(Proxies(m), BarRq) <==> m.bar
    ensures Has(Proxies(m), PostFlushRq) <==> m.postflush
  {
    var ps := Proxies(m);
    assert m.preflush ==> ps[0].kind == PreFlushRq;
    assert m.bar ==> ps[if m.preflush then 1 else 0].kind == BarRq;
    assert m.postflush ==> ps[|ps| - 1].kind == PostFlushRq;
  }

  // ---------- The scheduler ----------

  lemma {:induction false} DispatchKeeps(q: Queue, d: Dispatch)
    requires Inv(q) && CanDispatch(q, d)
    ensures Inv(DispatchOne(q, d))
  {
    var r := q.sorted[d.k];
    var q' := DispatchOne(q, d);
    assert SortedMember(q, r);
    RemoveMembers(q.sorted, d.k);
    InsertMembers(q.head, d.pos, r);
    DispatchMembers(q, d);
    DispatchOrder(q, d);
    InOrderInsert(|q.ends|, q.head, d.pos, r);
    forall k | k == PreFlushRq || k == BarRq || k == PostFlushRq
      ensures Has(q'.head, k) <==> Has(q.head, k)
    {
      HasInsert(q.head, d.pos, r, k);
    }
    assert NoProxies(q.head) ==> NoProxies(q'.head);
    DispatchLocated(q, d);
    DispatchAwaited(q, d);
  }

  lemma {:induction false} DispatchMembers(q: Queue, d: Dispatch)
    requires MembersOk(q) && CanDispatch(q, d) && (q.ordseq != {} ==> OrigOk(q)) && |q.ends| <= |q.barriers|
    ensures MembersOk(DispatchOne(q, d))
  {
    var q' := DispatchOne(q, d);
    RemoveMembers(q.sorted, d.k);
    InsertMembers(q.head, d.pos, q.sorted[d.k]);
    assert SortedMember(q, q.sorted[d.k]);
    forall x | x in q'.head ensures HeadMember(q', x) {
      assert x in q.head ==> HeadMember(q, x);
    }
    forall x | x in q'.driver ensures DriverMember(q', x) {
      assert DriverMember(q, x);
    }
    forall x | x in q'.sorted ensures SortedMember(q', x) {
      assert SortedMember(q, x);
    }
  }

  /** Nothing in the list comes after the epoch of new requests. */
  lemma {:induction false} NewestLast(q: Queue, r: Request)
    requires Core(q) && r.kind == Fs && r.epoch == |q.barriers|
    ensures forall i :: 0 <= i < |q.head| ==> Before(|q.ends|, q.head[i], r)
  {
    forall i | 0 <= i < |q.head| ensures Before(|q.ends|, q.head[i], r) {
      assert HeadMember(q, q.head[i]);
      assert q.head[i].kind == Fs ==> q.added[q.head[i].id].epoch <= |q.barriers|;
    }
  }

  /** The barrier that closes the epoch of a queued fs request stops the elevator at it or behind it. */
  lemma {:induction false} BarrierBehind(q: Queue, i: nat) returns (j: nat)
    requires Core(q) && i < |q.head| && q.head[i].kind == Fs && q.head[i].epoch < |q.barriers|
    ensures i <= j < |q.head| && q.head[j].Stops()
  {
    assert HeadMember(q, q.head[i]);
    if q.head[i].Stops() {
      return i;
    }
    var b := q.barriers[q.head[i].epoch];
    assert LocatedAt(q, b);
    assert !Holds(q.sorted, b) && !Holds(q.driver, b);
    var r :| r in q.head && r.kind == Fs && r.id == b;
    j :| 0 <= j < |q.head| && q.head[j] == r;
    assert HeadMember(q, r);
  }

  /** A request that the elevator may pass belongs to the epoch of new requests. */
  lemma {:induction false} PassableIsNewest(q: Queue, pos: nat, i: nat)
    requires Core(q) && pos <= i < |q.head| && q.head[i].kind == Fs
    requires forall j :: pos <= j < |q.head| ==> !q.head[j].Stops()
    ensures q.head[i].epoch == |q.barriers|
  {
    assert HeadMember(q, q.head[i]);
    assert q.added[q.head[i].id].epoch <= |q.barriers|;
    if q.head[i].epoch < |q.barriers| {
      var j := BarrierBehind(q, i);
    }
  }

  lemma {:induction false} DispatchOrder(q: Queue, d: Dispatch)
    requires Core(q) && CanDispatch(q, d)
    ensures var r := q.sorted[d.k];
            && (forall i :: 0 <= i < d.pos ==> Before(|q.ends|, q.head[i], r))
            && (forall i :: d.pos <= i < |q.head| ==> Before(|q.ends|, r, q.head[i]))
  {
    var r := q.sorted[d.k];
    assert SortedMember(q, r);
    NewestLast(q, r);
    forall i | d.pos <= i < |q.head| ensures Before(|q.ends|, r, q.head[i]) {
      assert HeadMember(q, q.head[i]);
      if q.head[i].kind == Fs {
        PassableIsNewest(q, d.pos, i);
      }
    }
  }

  lemma {:induction false} DispatchLocated(q: Queue, d: Dispatch)
    requires NothingLost(q) && CanDispatch(q, d)
    ensures NothingLost(DispatchOne(q, d))
  {
    var q' := DispatchOne(q, d);
    RemoveMembers(q.sorted, d.k);
    InsertMembers(q.head, d.pos, q.sorted[d.k]);
    forall id | 0 <= id < |q'.added| ensures LocatedAt(q', id) {
      assert LocatedAt(q, id);
    }
  }

  lemma {:induction false} DispatchAwaited(q: Queue, d: Dispatch)
    requires Inv(q) && CanDispatch(q, d)
    ensures DrainAwaited(DispatchOne(q, d))
  {
    if q.head != [] && d.pos == 0 && q.ordseq != {} {
      assert HeadMember(q, q.head[0]);
      PassableIsNewest(q, 0, 0);
      FrontStage(q);
    }
  }

  lemma {:induction false} DispatchAllKeeps(q: Queue, plan: seq<Dispatch>)
    requires Inv(q) && CanDispatchAll(q, plan)
    ensures Inv(DispatchAll(q, plan))
    decreases |plan|
  {
    if plan != [] {
      DispatchKeeps(q, plan[0]);
      DispatchAllKeeps(DispatchOne(q, plan[0]), plan[1..]);
    }
  }

  // ---------- Adding ----------

  /** Dispatching does not look at what Register changes. */
  lemma {:induction false} DispatchAllRegister(q: Queue, s: Submission, plan: seq<Dispatch>)
    requires CanDispatchAll(Register(q, s), plan)
    ensures CanDispatchAll(q, plan)
    ensures DispatchAll(Register(q, s), plan) == Register(DispatchAll(q, plan), s)
    decreases |plan|
  {
    if plan != [] {
      assert DispatchOne(Register(q, s), plan[0]) == Register(DispatchOne(q, plan[0]), s);
      DispatchAllRegister(DispatchOne(q, plan[0]), s, plan[1..]);
    }
  }

  lemma {:induction false} DispatchAllAdded(q: Queue, plan: seq<Dispatch>)
    requires CanDispatchAll(q, plan)
    ensures var q' := DispatchAll(q, plan);
            q' == q.(head := q'.head, sorted := q'.sorted)
    decreases |plan|
  {
    if plan != [] {
      DispatchAllAdded(DispatchOne(q, plan[0]), plan[1..]);
    }
  }

  lemma {:induction false} AddKeeps(q: Queue, s: Submission, place: Where, plan: seq<Dispatch>)
    requires Inv(q) && CanInsert(Register(q, s), Placement(s, place), plan)
    requires Disciplined(AddAction(s, place, plan))
    ensures Inv(Add(q, s, place, plan))
  {
    match Placement(s, place)
    case Front => AddFrontKeeps(q, s);
    case Sort => AddSortKeeps(q, s);
    case Back =>
      DispatchAllRegister(q, s, plan);
      var q0 := DispatchAll(q, plan);
      DispatchAllKeeps(q, plan);
      DispatchAllAdded(q, plan);
      AddBackKeeps(q0, s);
  }

  lemma {:induction false} AddFrontKeeps(q: Queue, s: Submission)
    requires Inv(q) && !s.fs && !s.hard
    ensures Inv(Insert(Register(q, s), NewRequest(q, s), Front, []))
  {
    var r := NewRequest(q, s).(soft := true);
    var q' := q.(head := [r] + q.head);
    assert Insert(Register(q, s), NewRequest(q, s), Front, []) == q';
    assert q'.head == InsertAt(q.head, 0, r);
    InsertMembers(q.head, 0, r);
    InOrderInsert(|q.ends|, q.head, 0, r);
    forall k | k == PreFlushRq || k == BarRq || k == PostFlushRq
      ensures Has(q'.head, k) <==> Has(q.head, k)
    {
      HasInsert(q.head, 0, r, k);
    }
    forall x | x in q'.head ensures HeadMember(q', x) {
      assert x in q.head ==> HeadMember(q, x);
    }
    SameSides(q, q');
    StillLocated(q, q');
  }

  lemma {:induction false} SameSides(q: Queue, q': Queue)
    requires MembersOk(q) && q'.driver == q.driver && q'.sorted == q.sorted
    requires q'.added == q.added && q'.barriers == q.barriers && q'.ends == q.ends && q'.ordseq == q.ordseq
    ensures forall r :: r in q'.driver ==> DriverMember(q', r)
    ensures forall r :: r in q'.sorted ==> SortedMember(q', r)
  {
    forall x | x in q'.driver ensures DriverMember(q', x) {
      assert DriverMember(q, x);
    }
    forall x | x in q'.sorted ensures SortedMember(q', x) {
      assert SortedMember(q, x);
    }
  }

  lemma {:induction false} LogGrows(added: seq<Request>, barriers: seq<nat>, r: Request)
    requires LogOk(added, barriers)
    requires r.kind == Fs && r.id == |added| && r.epoch == |barriers|
    ensures LogOk(added + [r], if r.hard then barriers + [|added|] else barriers)
  {
  }

  lemma {:induction false} RegisterHistory(q: Queue, s: Submission)
    requires HistoryOk(q) && (s.hard ==> s.fs)
    ensures HistoryOk(Register(q, s))
  {
    if s.fs {
      LogGrows(q.added, q.barriers, NewRequest(q, s));
    }
  }

  /** What is known of a request stays known as the log grows. */
  lemma {:induction false} RegisterMembers(q: Queue, s: Submission)
    requires MembersOk(q)
    ensures var q' := Register(q, s);
            && (forall r :: r in q.head ==> HeadMember(q', r))
            && (forall r :: r in q.driver ==> DriverMember(q', r))
            && (!s.hard ==> forall r :: r in q.sorted ==> SortedMember(q', r))
    ensures Known(q, q.origBar) ==> Known(Register(q, s), q.origBar)
  {
    var q' := Register(q, s);
    forall r | r in q.head ensures HeadMember(q', r) {
      assert HeadMember(q, r);
    }
    forall r | r in q.driver ensures DriverMember(q', r) {
      assert DriverMember(q, r);
    }
    if !s.hard {
      forall r | r in q.sorted ensures SortedMember(q', r) {
        assert SortedMember(q, r);
      }
    }
  }

  lemma {:induction false} AddedLocated(q: Queue, q': Queue, s: Submission)
    requires NothingLost(q)
    requires q'.added == Register(q, s).added && q'.completed == q.completed && q'.driver == q.driver
    requires q'.ordseq == q.ordseq && q'.origBar == q.origBar
    requires forall r :: r in q.head ==> r in q'.head
    requires forall r :: r in q.sorted ==> r in q'.sorted
    requires s.fs ==> Holds(q'.head, |q.added|) || Holds(q'.sorted, |q.added|)
    ensures NothingLost(q')
  {
    forall id | 0 <= id < |q'.added| ensures LocatedAt(q', id) {
      if id < |q.added| {
        assert LocatedAt(q, id);
      }
    }
  }

  lemma {:induction false} AddSortKeeps(q: Queue, s: Submission)
    requires Inv(q) && s.fs && !s.hard
    ensures Inv(Insert(Register(q, s), NewRequest(q, s), Sort, []))
  {
    var r := NewRequest(q, s);
    var q' := Insert(Register(q, s), r, Sort, []);
    RegisterHistory(q, s);
    SortMembers(q, s);
    SortSequence(q, s);
    assert q'.sorted[|q.sorted|] == r;
    AddedLocated(q, q', s);
  }

  lemma {:induction false} SortSequence(q: Queue, s: Submission)
    requires SequenceOk(q) && s.fs && !s.hard
    ensures SequenceOk(Insert(Register(q, s), NewRequest(q, s), Sort, []))
  {
  }

  lemma {:induction false} SortMembers(q: Queue, s: Submission)
    requires MembersOk(q) && HistoryOk(q) && s.fs && !s.hard
    ensures MembersOk(Insert(Register(q, s), NewRequest(q, s), Sort, []))
  {
    var q1 := Register(q, s);
    var q' := Insert(q1, NewRequest(q, s), Sort, []);
    RegisterMembers(q, s);
    forall x | x in q'.head ensures HeadMember(q', x) {
      assert HeadMember(q1, x);
    }
    forall x | x in q'.driver ensures DriverMember(q', x) {
      assert DriverMember(q1, x);
    }
    forall x | x in q'.sorted ensures SortedMember(q', x) {
      assert x in q.sorted ==> SortedMember(q1, x);
      assert q1.added[|q.added|] == NewRequest(q, s);
    }
  }

  function AddedBack(q: Queue, s: Submission): Queue {
    var q1 := Register(q, s);
    q1.(head := q1.head + [NewRequest(q, s).(soft := true)])
  }

  lemma {:induction false} AddBackKeeps(q: Queue, s: Submission)
    requires Inv(q) && q.sorted == [] && (s.hard ==> s.fs)
    ensures Inv(AddedBack(q, s))
  {
    var r := NewRequest(q, s).(soft := true);
    var q' := AddedBack(q, s);
    RegisterHistory(q, s);
    BackMembers(q, s);
    BackOrder(q, s);
    assert q'.head[|q.head|] == r;
    AddedLocated(q, q', s);
    forall k | k == PreFlushRq || k == BarRq || k == PostFlushRq
      ensures Has(q'.head, k) <==> Has(q.head, k)
    {
      HasAppend(q.head, r, k);
    }
    if q.ordseq != {} {
      BackOrig(q, s);
    }
  }

  lemma {:induction false} BackOrig(q: Queue, s: Submission)
    requires OrigOk(q)
    ensures OrigOk(AddedBack(q, s))
  {
  }

  lemma {:induction false} BackMembers(q: Queue, s: Submission)
    requires Core(q) && q.sorted == [] && (s.hard ==> s.fs)
    ensures MembersOk(AddedBack(q, s))
  {
    var q1 := Register(q, s);
    var q' := AddedBack(q, s);
    RegisterMembers(q, s);
    forall x | x in q'.head ensures HeadMember(q', x) {
      assert x in q.head ==> HeadMember(q1, x);
      assert s.fs ==> q1.added[|q.added|] == NewRequest(q, s);
    }
    forall x | x in q'.driver ensures DriverMember(q', x) {
      assert DriverMember(q1, x);
    }
  }

  lemma {:induction false} BackOrder(q: Queue, s: Submission)
    requires Core(q)
    ensures InOrder(|q.ends|, AddedBack(q, s).head)
  {
    var r := NewRequest(q, s).(soft := true);
    assert AddedBack(q, s).head == InsertAt(q.head, |q.head|, r);
    if r.kind == Fs {
      NewestLast(q, r);
    }
    InOrderInsert(|q.ends|, q.head, |q.head|, r);
  }

  // ---------- All runs ----------

  /** A part of bar_rq completes: only the error of the sequence may change. */
  lemma {:induction false} PartKeeps(q: Queue, i: nat, error: int)
    requires Inv(q) && i < |q.driver| && q.driver[i].kind == BarRq
    ensures Inv(RecordError(q, error))
  {
    var q' := RecordError(q, error);
    FirstErrorAppend(q.reports, error);
    PartMembers(q, q');
    StillLocated(q, q');
  }

  lemma {:induction false} PartMembers(q: Queue, q': Queue)
    requires MembersOk(q) && q' == q.(orderr := q'.orderr, reports := q'.reports)
    ensures MembersOk(q')
  {
    forall x | x in q'.head ensures HeadMember(q', x) {
      assert HeadMember(q, x);
    }
    forall x | x in q'.driver ensures DriverMember(q', x) {
      assert DriverMember(q, x);
    }
    forall x | x in q'.sorted ensures SortedMember(q', x) {
      assert SortedMember(q, x);
    }
  }

  lemma {:induction false} ExecKeeps(q: Queue, a: Action)
    requires Inv(q) && Enabled(q, a) && Disciplined(a)
    ensures Inv(Exec(q, a))
  {
    match a
    case AddAction(s, place, plan) => AddKeeps(q, s, place, plan);
    case DispatchAction(d) => DispatchKeeps(q, d);
    case PeekAction => PeekKeeps(q);
    case StartAction(i) => StartKeeps(q, i);
    case CompleteAction(i, error) => CompleteKeeps(q, i, error);
    case PartAction(i, error) => PartKeeps(q, i, error);
    case RequeueAction(i) => RequeueKeeps(q, i);
  }

  lemma {:induction false} InitialHolds(o: Ordered)
    ensures Inv(InitialQueue(Some(o)))
  {
  }

  lemma {:induction false} RunKeeps(q: Queue, run: seq<Action>)
    requires Inv(q) && IsRun(q, run) && forall a :: a in run ==> Disciplined(a)
    ensures Inv(After(q, run))
    decreases |run|
  {
    if run != [] {
      ExecKeeps(q, run[0]);
      RunKeeps(Exec(q, run[0]), run[1..]);
    }
  }
}
