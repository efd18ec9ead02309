/**
 The queue of requests that bios are merged into: __make_request with its attempts to merge
 neighbours, over every run of submissions and dispatches.
 */
module MakeRequest {
  import opened Wrappers
  import opened Segments
  import opened Merging

  // The requests that may be merged, those already handed over for service, and the bios
  // accepted so far.
  datatype Pool = Pool(rqs: seq<Request>, sent: seq<Request>, accepted: seq<nat>)

  /** The requests in the queue can be merged at all. */
  predicate Ready(rqs: seq<Request>) {
    forall i :: 0 <= i < |rqs| ==> HasData(rqs[i])
  }

  /** attempt_back_merge and attempt_front_merge: request j follows request i. */
  function MergeNeighbours(q: Limits, rqs: seq<Request>, i: nat, j: nat): seq<Request>
    requires i < |rqs| && j < |rqs| && i != j && Ready(rqs)
  {
    var (a, b, ok) := AttemptMerge(q, rqs[i], rqs[j]);
    var rqs' := rqs[i := a][j := b];
    if ok then Remove(rqs', j) else rqs'
  }

  /** The neighbour the scheduler names, if any, with request i: behind it or before it. */
  function NearPair(rqs: seq<Request>, i: nat, near: Option<nat>, back: bool): (r: Option<(nat, nat)>)
    requires i < |rqs|
    ensures r.Some? ==>
              && r.value.0 < |rqs| && r.value.1 < |rqs| && r.value.0 != r.value.1
              && (r.value.0 == i || r.value.1 == i)
  {
    if near.None? || near.value >= |rqs| || near.value == i then None
    else if back then Some((i, near.value))
    else Some((near.value, i))
  }

  function TryNear(q: Limits, rqs: seq<Request>, i: nat, near: Option<nat>, back: bool): seq<Request>
    requires i < |rqs| && Ready(rqs)
  {
    var pair := NearPair(rqs, i, near, back);
    if pair.None? then rqs else MergeNeighbours(q, rqs, pair.value.0, pair.value.1)
  }

  function AddNew(q: Limits, rqs: seq<Request>, b: Bio, barrier: bool): seq<Request>
    requires b.vecs != []
  {
    rqs + [NewRequest(q, b, barrier)]
  }

  /**
   The end of a merge into request i.  When it was refused the request and the bio may still have
   changed, and the bio gets a request of its own; otherwise the neighbour the scheduler names is
   tried, which is behind request i after a back merge and before it after a front merge.
   */
  function Settle(q: Limits, rqs: seq<Request>, i: nat, rq: Request, b: Bio, ok: bool, linked: Request,
                  near: Option<nat>, back: bool): seq<Request>
    requires i < |rqs| && Ready(rqs) && Carries(b) && HasData(linked)
  {
    if !ok then AddNew(q, rqs[i := rq], b, false) else TryNear(q, rqs[i := linked], i, near, back)
  }

  lemma {:induction false} LimitsKeepData(q: Limits, rq: Request, b: Bio, at: nat)
    requires HasData(rq) && at < |rq.bios| && rq.bios[at].vecs != [] && Carries(b)
    ensures var (rq', b', _) := MergeLimits(q, rq, b, at);
            HasData(rq') && Carries(b') && HasData(LinkBack(rq', b')) && HasData(LinkFront(rq', b'))
  {
    var (rq', b', _) := MergeLimits(q, rq, b, at);
    CountKeepsData(q, rq, at);
    LinksKeepData(rq', b');
  }

  lemma {:induction false} CountKeepsData(q: Limits, rq: Request, at: nat)
    requires HasData(rq) && at < |rq.bios| && rq.bios[at].vecs != []
    ensures HasData(rq.(bios := rq.bios[at := Counted(q, rq.bios[at])]))
  {
  }

  lemma {:induction false} LinksKeepData(rq: Request, b: Bio)
    requires HasData(rq) && Carries(b)
    ensures HasData(LinkBack(rq, b)) && HasData(LinkFront(rq, b))
  {
  }

  function SubmitBack(q: Limits, rqs: seq<Request>, b: Bio, i: nat, near: Option<nat>): seq<Request>
    requires i < |rqs| && Ready(rqs) && Carries(b)
  {
    LimitsKeepData(q, rqs[i], b, rqs[i].tail);
    var (rq, b', ok) := MergeLimits(q, rqs[i], b, rqs[i].tail);
    Settle(q, rqs, i, rq, b', ok, LinkBack(rq, b'), near, true)
  }

  function SubmitFront(q: Limits, rqs: seq<Request>, b: Bio, i: nat, near: Option<nat>): seq<Request>
    requires i < |rqs| && Ready(rqs) && Carries(b)
  {
    LimitsKeepData(q, rqs[i], b, 0);
    var (rq, b', ok) := MergeLimits(q, rqs[i], b, 0);
    Settle(q, rqs, i, rq, b', ok, LinkFront(rq, b'), near, false)
  }

  /** What elv_merge says of the request it found, if any. */
  function Kind(p: Pool, b: Bio, barrier: bool, pick: Option<nat>): (m: Merge)
    ensures m != NoMerge ==> pick.Some? && pick.value < |p.rqs| && m == TryMerge(p.rqs[pick.value], b)
  {
    if barrier || pick.None? || pick.value >= |p.rqs| then NoMerge else TryMerge(p.rqs[pick.value], b)
  }

  /** __make_request; pick is the request elv_merge found, if any. */
  function Submit(q: Limits, p: Pool, b: Bio, barrier: bool, pick: Option<nat>, near: Option<nat>): Pool
    requires Ready(p.rqs) && Carries(b)
  {
    var kind := Kind(p, b, barrier, pick);
    p.(accepted := p.accepted + [b.id],
       rqs := match kind
              case NoMerge => AddNew(q, p.rqs, b, barrier)
              case BackMerge => SubmitBack(q, p.rqs, b, pick.value, near)
              case FrontMerge => SubmitFront(q, p.rqs, b, pick.value, near))
  }

  function Dispatch(p: Pool, i: nat): Pool
    requires i < |p.rqs|
  {
    p.(rqs := Remove(p.rqs, i), sent := p.sent + [p.rqs[i].(nomerge := true)])
  }

  // ---------- Every run ----------

  datatype Action =
    | SubmitAction(b: Bio, barrier: bool, pick: Option<nat>, near: Option<nat>)
    | DispatchAction(i: nat)

  ghost predicate Enabled(q: Limits, p: Pool, a: Action) {
    match a
    case SubmitAction(b, _, _, _) => Ready(p.rqs) && BioOk(b) && CountOk(q, b)
    case DispatchAction(i) => i < |p.rqs|
  }

  ghost function Exec(q: Limits, p: Pool, a: Action): Pool
    requires Enabled(q, p, a)
  {
    match a
    case SubmitAction(b, barrier, pick, near) => Submit(q, p, b, barrier, pick, near)
    case DispatchAction(i) => Dispatch(p, i)
  }

  /** The bios of a list of requests. */
  function Held(rqs: seq<Request>): multiset<nat> {
    if rqs == [] then multiset{} else Ids(rqs[0].bios) + Held(rqs[1..])
  }

  ghost predicate AllOk(q: Limits, rqs: seq<Request>) {
    forall i :: 0 <= i < |rqs| ==> RequestOk(q, rqs[i])
  }

  /** Every request is in order, and every accepted bio is in exactly one of them. */
  ghost predicate Inv(q: Limits, p: Pool) {
    && AllOk(q, p.rqs) && AllOk(q, p.sent)
    && Held(p.rqs) + Held(p.sent) == multiset(p.accepted)
  }

  // ---------- What a list of requests holds ----------

  lemma {:induction false} HeldAppend(a: seq<Request>, b: seq<Request>)
    ensures Held(a + b) == Held(a) + Held(b)
  {
    if a == [] {
      assert a + b == b;
    } else {
      assert (a + b)[1..] == a[1..] + b;
      HeldAppend(a[1..], b);
    }
  }

  lemma {:induction false} HeldOne(r: Request)
    ensures Held([r]) == Ids(r.bios)
  {
    assert [r][1..] == [];
  }

  lemma {:induction false} HeldSplit(rqs: seq<Request>, i: nat)
    requires i < |rqs|
    ensures Held(rqs) == Held(Remove(rqs, i)) + Ids(rqs[i].bios)
  {
    var rest := Remove(rqs, i);
    if i == 0 {
      assert rest == rqs[1..];
    } else {
      HeldSplit(rqs[1..], i - 1);
      assert rest[0] == rqs[0] && rest[1..] == Remove(rqs[1..], i - 1);
    }
  }

  lemma {:induction false} HeldUpdate(rqs: seq<Request>, i: nat, r: Request)
    requires i < |rqs|
    ensures Held(rqs[i := r]) + Ids(rqs[i].bios) == Held(rqs) + Ids(r.bios)
  {
    HeldSplit(rqs, i);
    HeldSplit(rqs[i := r], i);
    assert Remove(rqs[i := r], i) == Remove(rqs, i);
  }

  // ---------- Every step ----------

  lemma {:induction false} OkIsReady(q: Limits, rqs: seq<Request>)
    requires AllOk(q, rqs)
    ensures Ready(rqs)
  {
    forall i | 0 <= i < |rqs|
      ensures HasData(rqs[i])
    {
      var r := rqs[i];
      assert BioOk(r.bios[0]) && BioOk(r.bios[r.tail]);
    }
  }

  lemma {:induction false} ReplaceOk(q: Limits, rqs: seq<Request>, i: nat, r: Request)
    requires AllOk(q, rqs) && i < |rqs| && RequestOk(q, r)
    ensures AllOk(q, rqs[i := r])
  {
  }

  lemma {:induction false} AppendOk(q: Limits, rqs: seq<Request>, r: Request)
    requires AllOk(q, rqs) && RequestOk(q, r)
    ensures AllOk(q, rqs + [r])
  {
  }

  lemma {:induction false} RemoveOk(q: Limits, rqs: seq<Request>, i: nat)
    requires AllOk(q, rqs) && i < |rqs|
    ensures AllOk(q, Remove(rqs, i))
  {
  }

  lemma {:induction false} HeldRefused(rqs: seq<Request>, i: nat, j: nat, a: Request, b: Request)
    requires i < |rqs| && j < |rqs| && i != j
    requires Ids(a.bios) == Ids(rqs[i].bios) && Ids(b.bios) == Ids(rqs[j].bios)
    ensures Held(rqs[i := a][j := b]) == Held(rqs)
  {
    HeldUpdate(rqs, i, a);
    Cancels(Held(rqs[i := a]), Held(rqs), Ids(a.bios));
    HeldUpdate(rqs[i := a], j, b);
    Cancels(Held(rqs[i := a][j := b]), Held(rqs[i := a]), Ids(b.bios));
  }

  lemma {:induction false} HeldAccepted(rqs: seq<Request>, i: nat, j: nat, a: Request, b: Request)
    requires i < |rqs| && j < |rqs| && i != j && Ids(a.bios) == Ids(rqs[i].bios) + Ids(rqs[j].bios)
    ensures Held(Remove(rqs[i := a][j := b], j)) == Held(rqs)
  {
    var rest := Remove(rqs[i := a], j);
    assert Remove(rqs[i := a][j := b], j) == rest;
    HeldUpdate(rqs, i, a);
    HeldSplit(rqs[i := a], j);
    Cancels(Held(rest), Held(rqs), Ids(rqs[i].bios) + Ids(rqs[j].bios));
  }

  lemma {:induction false} NeighboursKept(q: Limits, rqs: seq<Request>, i: nat, j: nat)
    requires AllOk(q, rqs) && Ready(rqs) && Short(q) && i < |rqs| && j < |rqs| && i != j
    requires Grown(q, rqs[i]) || Grown(q, rqs[j])
    ensures AllOk(q, MergeNeighbours(q, rqs, i, j)) && Held(MergeNeighbours(q, rqs, i, j)) == Held(rqs)
  {
    var (a, b, ok) := AttemptMerge(q, rqs[i], rqs[j]);
    AttemptMergeOk(q, rqs[i], rqs[j]);
    ReplaceOk(q, rqs, i, a);
    if ok {
      RemoveOk(q, rqs[i := a], j);
      assert Remove(rqs[i := a][j := b], j) == Remove(rqs[i := a], j);
      HeldAccepted(rqs, i, j, a, b);
    } else {
      ReplaceOk(q, rqs[i := a], j, b);
      HeldRefused(rqs, i, j, a, b);
    }
  }

  lemma {:induction false} NearKept(q: Limits, rqs: seq<Request>, i: nat, near: Option<nat>, back: bool)
    requires AllOk(q, rqs) && Ready(rqs) && Short(q) && i < |rqs| && Grown(q, rqs[i])
    ensures AllOk(q, TryNear(q, rqs, i, near, back)) && Held(TryNear(q, rqs, i, near, back)) == Held(rqs)
  {
    var pair := NearPair(rqs, i, near, back);
    if pair.Some? {
      NeighboursKept(q, rqs, pair.value.0, pair.value.1);
    }
  }

  lemma {:induction false} NewKept(q: Limits, rqs: seq<Request>, b: Bio, barrier: bool)
    requires AllOk(q, rqs) && BioOk(b) && CountOk(q, b)
    ensures AllOk(q, AddNew(q, rqs, b, barrier)) && Held(AddNew(q, rqs, b, barrier)) == Held(rqs) + multiset{b.id}
  {
    NewRequestOk(q, b, barrier);
    HeldAppend(rqs, [NewRequest(q, b, barrier)]);
    HeldOne(NewRequest(q, b, barrier));
  }

  lemma {:induction false} RefusedKept(q: Limits, rqs: seq<Request>, i: nat, rq: Request, b: Bio)
    requires AllOk(q, rqs) && i < |rqs| && BioOk(b) && CountOk(q, b) && RequestOk(q, rq) && rq.bios == rqs[i].bios
    ensures var rqs' := AddNew(q, rqs[i := rq], b, false); AllOk(q, rqs') && Held(rqs') == Held(rqs) + multiset{b.id}
  {
    ReplaceOk(q, rqs, i, rq);
    HeldUpdate(rqs, i, rq);
    Cancels(Held(rqs[i := rq]), Held(rqs), Ids(rq.bios));
    NewKept(q, rqs[i := rq], b, false);
  }

  lemma {:induction false} LinkedKept(q: Limits, rqs: seq<Request>, i: nat, linked: Request, id: nat)
    requires AllOk(q, rqs) && i < |rqs| && RequestOk(q, linked)
    requires Ids(linked.bios) == Ids(rqs[i].bios) + multiset{id}
    ensures AllOk(q, rqs[i := linked]) && Ready(rqs[i := linked]) && Held(rqs[i := linked]) == Held(rqs) + multiset{id}
  {
    ReplaceOk(q, rqs, i, linked);
    OkIsReady(q, rqs[i := linked]);
    HeldUpdate(rqs, i, linked);
    Cancels(Held(rqs[i := linked]), Held(rqs) + multiset{id}, Ids(rqs[i].bios));
  }

  lemma {:induction false} SettleKept(q: Limits, rqs: seq<Request>, i: nat, rq: Request, b: Bio, ok: bool,
                                      linked: Request, near: Option<nat>, back: bool)
    requires AllOk(q, rqs) && Ready(rqs) && i < |rqs| && BioOk(b) && CountOk(q, b) && HasData(linked)
    requires !ok ==> RequestOk(q, rq) && rq.bios == rqs[i].bios
    requires ok ==> RequestOk(q, linked) && Ids(linked.bios) == Ids(rqs[i].bios) + multiset{b.id}
    requires ok ==> Short(q) && Grown(q, linked)
    ensures var rqs' := Settle(q, rqs, i, rq, b, ok, linked, near, back);
            AllOk(q, rqs') && Held(rqs') == Held(rqs) + multiset{b.id}
  {
    if !ok {
      RefusedKept(q, rqs, i, rq, b);
    } else {
      LinkedKept(q, rqs, i, linked, b.id);
      NearKept(q, rqs[i := linked], i, near, back);
    }
  }

  lemma {:induction false} BackKept(q: Limits, rqs: seq<Request>, b: Bio, i: nat, near: Option<nat>)
    requires AllOk(q, rqs) && Ready(rqs) && LengthsFit(q) && BioOk(b) && CountOk(q, b)
    requires i < |rqs| && TryMerge(rqs[i], b) == BackMerge
    ensures var rqs' := SubmitBack(q, rqs, b, i, near);
            AllOk(q, rqs') && Held(rqs') == Held(rqs) + multiset{b.id}
  {
    var (rq, b', ok) := MergeLimits(q, rqs[i], b, rqs[i].tail);
    BackMergeOk(q, rqs[i], b);
    if ok {
      TakenMeansGrown(q, rqs[i], b, rqs[i].tail);
    }
    SettleKept(q, rqs, i, rq, b', ok, LinkBack(rq, b'), near, true);
  }

  lemma {:induction false} FrontKept(q: Limits, rqs: seq<Request>, b: Bio, i: nat, near: Option<nat>)
    requires AllOk(q, rqs) && Ready(rqs) && LengthsFit(q) && BioOk(b) && CountOk(q, b)
    requires i < |rqs| && TryMerge(rqs[i], b) == FrontMerge
    ensures var rqs' := SubmitFront(q, rqs, b, i, near);
            AllOk(q, rqs') && Held(rqs') == Held(rqs) + multiset{b.id}
  {
    var (rq, b', ok) := MergeLimits(q, rqs[i], b, 0);
    FrontMergeOk(q, rqs[i], b);
    if ok {
      TakenMeansGrown(q, rqs[i], b, 0);
    }
    SettleKept(q, rqs, i, rq, b', ok, LinkFront(rq, b'), near, false);
  }

  lemma {:induction false} SubmitKept(q: Limits, p: Pool, b: Bio, barrier: bool, pick: Option<nat>, near: Option<nat>)
    requires Inv(q, p) && Ready(p.rqs) && LengthsFit(q) && BioOk(b) && CountOk(q, b)
    ensures Inv(q, Submit(q, p, b, barrier, pick, near))
  {
    match Kind(p, b, barrier, pick)
    case NoMerge =>
      NewKept(q, p.rqs, b, barrier);
      AcceptedKept(q, p, b, AddNew(q, p.rqs, b, barrier));
    case BackMerge =>
      BackKept(q, p.rqs, b, pick.value, near);
      AcceptedKept(q, p, b, SubmitBack(q, p.rqs, b, pick.value, near));
    case FrontMerge =>
      FrontKept(q, p.rqs, b, pick.value, near);
      AcceptedKept(q, p, b, SubmitFront(q, p.rqs, b, pick.value, near));
  }

  lemma {:induction false} AcceptedKept(q: Limits, p: Pool, b: Bio, rqs: seq<Request>)
    requires Inv(q, p) && AllOk(q, rqs) && Held(rqs) == Held(p.rqs) + multiset{b.id}
    ensures Inv(q, p.(accepted := p.accepted + [b.id], rqs := rqs))
  {
  }

  lemma {:induction false} DispatchKept(q: Limits, p: Pool, i: nat)
    requires Inv(q, p) && i < |p.rqs|
    ensures Inv(q, Dispatch(p, i))
  {
    var r := p.rqs[i].(nomerge := true);
    HeldDispatched(p.rqs, p.sent, i, r);
    NomergeOk(q, p.rqs[i]);
    AppendOk(q, p.sent, r);
    RemoveOk(q, p.rqs, i);
  }

  lemma {:induction false} HeldDispatched(rqs: seq<Request>, sent: seq<Request>, i: nat, r: Request)
    requires i < |rqs| && r.bios == rqs[i].bios
    ensures Held(Remove(rqs, i)) + Held(sent + [r]) == Held(rqs) + Held(sent)
  {
    HeldSplit(rqs, i);
    HeldAppend(sent, [r]);
    HeldOne(r);
  }

  ghost predicate IsRun(q: Limits, p: Pool, run: seq<Action>)
    decreases |run|
  {
    run == [] || (Enabled(q, p, run[0]) && IsRun(q, Exec(q, p, run[0]), run[1..]))
  }

  ghost function After(q: Limits, p: Pool, run: seq<Action>): Pool
    requires IsRun(q, p, run)
    decreases |run|
  {
    if run == [] then p else After(q, Exec(q, p, run[0]), run[1..])
  }

  lemma {:induction false} RunKeeps(q: Limits, p: Pool, run: seq<Action>)
    requires LengthsFit(q) && Inv(q, p) && IsRun(q, p, run)
    ensures Inv(q, After(q, p, run))
    decreases |run|
  {
    if run != [] {
      match run[0] {
        case SubmitAction(b, barrier, pick, near) => SubmitKept(q, p, b, barrier, pick, near);
        case DispatchAction(i) => DispatchKept(q, p, i);
      }
      RunKeeps(q, Exec(q, p, run[0]), run[1..]);
    }
  }

  const EMPTY: Pool := Pool([], [], [])

  /** Merging conserves I/O: no bio is lost or doubled, whatever was merged with whatever. */
  lemma {:induction false} EveryBioInOneRequest(q: Limits, run: seq<Action>)
    requires LengthsFit(q) && IsRun(q, EMPTY, run)
    ensures var p := After(q, EMPTY, run); Held(p.rqs + p.sent) == multiset(p.accepted)
  {
    RunKeeps(q, EMPTY, run);
    var p := After(q, EMPTY, run);
    HeldAppend(p.rqs, p.sent);
  }

  /** Every request covers one stretch of the disk, has its length and end, and respects the limits. */
  lemma {:induction false} EveryRequestOk(q: Limits, run: seq<Action>, rq: Request)
    requires LengthsFit(q) && IsRun(q, EMPTY, run) && rq in After(q, EMPTY, run).rqs + After(q, EMPTY, run).sent
    ensures rq.bios != [] && rq.tail == |rq.bios| - 1
    ensures Contiguous(rq.bios, rq.sector) && rq.dataLen == Bytes(rq.bios)
    ensures |rq.bios| > 1 ==> rq.Sectors() <= q.maxSectors && rq.nr <= q.maxSegments
  {
    RunKeeps(q, EMPTY, run);
  }

  /** The scatterlist of every request fits in its segment count, and no sum on the way to it wraps. */
  lemma {:induction false} ScatterlistFits(q: Limits, run: seq<Action>, rq: Request)
    requires LengthsFit(q) && IsRun(q, EMPTY, run) && rq in After(q, EMPTY, run).rqs + After(q, EMPTY, run).sent
    ensures 0 < |Mapped(q, Data(rq.bios))| <= rq.nr
    ensures Size(Data(rq.bios)) == rq.dataLen < TWO_32
  {
    RunKeeps(q, EMPTY, run);
    DataSize(rq.bios);
    MapWithinCount(q, Data(rq.bios), rq.nr, rq.bios[0].segFront, rq.Biotail().segBack);
  }

  // ---------- The condition on the limits is exact ----------

  /** The two requests that attempt_merge is called with at the end of a submission, if it is. */
  function Attempted(q: Limits, p: Pool, b: Bio, barrier: bool, pick: Option<nat>, near: Option<nat>)
    : (r: Option<(Request, Request)>)
    requires Ready(p.rqs) && Carries(b)
    ensures r.Some? ==> HasData(r.value.0) && HasData(r.value.1)
  {
    var kind := Kind(p, b, barrier, pick);
    if kind == NoMerge then None
    else
      var i := pick.value;
      var at := if kind == BackMerge then p.rqs[i].tail else 0;
      LimitsKeepData(q, p.rqs[i], b, at);
      var (rq, b', ok) := MergeLimits(q, p.rqs[i], b, at);
      var rqs := p.rqs[i := if kind == BackMerge then LinkBack(rq, b') else LinkFront(rq, b')];
      var pair := NearPair(rqs, i, near, kind == BackMerge);
      if ok && pair.Some? then Some((rqs[pair.value.0], rqs[pair.value.1])) else None
  }

  /** If a seam size is computed at all, it is not truncated. */
  predicate SeamHolds(q: Limits, pair: Option<(Request, Request)>)
    requires pair.Some? ==> HasData(pair.value.0) && HasData(pair.value.1)
  {
    pair.Some? && pair.value.0.Sectors() + pair.value.1.Sectors() <= q.maxSectors ==>
      SeamSum(pair.value.0, pair.value.1) < TWO_32
  }

  lemma {:induction false} AttemptedOk(q: Limits, p: Pool, b: Bio, barrier: bool, pick: Option<nat>, near: Option<nat>)
    requires AllOk(q, p.rqs) && Ready(p.rqs) && BioOk(b) && CountOk(q, b) && LengthsFit(q)
    ensures var pair := Attempted(q, p, b, barrier, pick, near);
            pair.Some? ==> Short(q) && RequestOk(q, pair.value.0) && RequestOk(q, pair.value.1)
  {
    var kind := Kind(p, b, barrier, pick);
    if kind != NoMerge {
      var i := pick.value;
      var at := if kind == BackMerge then p.rqs[i].tail else 0;
      if MergeLimits(q, p.rqs[i], b, at).2 {
        TakenMeansGrown(q, p.rqs[i], b, at);
        if kind == BackMerge {
          BackMergeOk(q, p.rqs[i], b);
        } else {
          FrontMergeOk(q, p.rqs[i], b);
        }
      }
    }
  }

  ghost predicate SeamsHold(q: Limits) {
    forall run, b, barrier, pick, near ::
      IsRun(q, EMPTY, run) && Ready(After(q, EMPTY, run).rqs) && BioOk(b) && CountOk(q, b) ==>
        SeamHolds(q, Attempted(q, After(q, EMPTY, run), b, barrier, pick, near))
  }

  ghost predicate LengthsHold(q: Limits) {
    forall run, rq ::
      IsRun(q, EMPTY, run) && rq in After(q, EMPTY, run).rqs + After(q, EMPTY, run).sent ==>
        rq.dataLen == Bytes(rq.bios)
  }

  /** Queues with the same numbers, whatever the layout of memory. */
  predicate SameLimits(q: Limits, q': Limits) {
    q'.maxSegmentSize == q.maxSegmentSize && q'.maxSegments == q.maxSegments && q'.maxSectors == q.maxSectors
  }

  /** In no run is a seam size truncated, exactly under this condition. */
  lemma {:induction false} SeamsHoldIsExact(q: Limits)
    ensures SeamsHold(q) <==> LengthsFit(q)
  {
    if LengthsFit(q) {
      forall run, b, barrier, pick, near
        | IsRun(q, EMPTY, run) && Ready(After(q, EMPTY, run).rqs) && BioOk(b) && CountOk(q, b)
        ensures SeamHolds(q, Attempted(q, After(q, EMPTY, run), b, barrier, pick, near))
      {
        RunKeeps(q, EMPTY, run);
        var p := After(q, EMPTY, run);
        AttemptedOk(q, p, b, barrier, pick, near);
        var pair := Attempted(q, p, b, barrier, pick, near);
        if pair.Some? && pair.value.0.Sectors() + pair.value.1.Sectors() <= q.maxSectors {
          SeamFits(q, pair.value.0, pair.value.1);
        }
      }
    } else {
      TwoRequests(q);
      WrappingPair(q);
      assert !SeamHolds(q, Attempted(q, After(q, EMPTY, FIRST_TWO), THIRD, false, Some(1), Some(0)));
    }
  }

  /** In every run every length is right, exactly under this condition. */
  lemma {:induction false} LengthsFitIsExact(q: Limits)
    ensures (forall q' :: SameLimits(q, q') ==> LengthsHold(q')) <==> LengthsFit(q)
  {
    if LengthsFit(q) {
      forall q' | SameLimits(q, q')
        ensures LengthsHold(q')
      {
        forall run, rq | IsRun(q', EMPTY, run) && rq in After(q', EMPTY, run).rqs + After(q', EMPTY, run).sent
          ensures rq.dataLen == Bytes(rq.bios)
        {
          RunKeeps(q', EMPTY, run);
        }
      }
    } else {
      var q' := q.(cluster := true, joins := (v, w) => true);
      var run, rq := WrappedRun(q');
      assert rq in After(q', EMPTY, run).rqs + After(q', EMPTY, run).sent;
      assert SameLimits(q, q') && !LengthsHold(q');
    }
  }

  // ---------- A run in which a length and a seam size wrap ----------

  const NEARLY_ALL: nat := TWO_32 - 512

  /** A counted bio of one vector. */
  function OneVector(id: nat, sector: nat, len: nat): Bio {
    Bio(id, sector, len, [Bvec(id, 0, len)], false, len, len, 1, true)
  }

  const LARGE: Bio := OneVector(0, 2, NEARLY_ALL)
  const SECOND: Bio := OneVector(1, 0, 512)
  const THIRD: Bio := OneVector(2, 1, 512)

  const FIRST_TWO: seq<Action> := [SubmitAction(LARGE, false, None, None), SubmitAction(SECOND, false, None, None)]

  function Alone(b: Bio): Request {
    Request([b], 0, b.sector, b.size, 1, false, false, false)
  }

  const TWO_WAITING: Pool := Pool([Alone(LARGE), Alone(SECOND)], [], [0, 1])

  lemma {:induction false} OneVectorData(q: Limits, id: nat, len: nat)
    ensures Size([Bvec(id, 0, len)]) == len && Bounded(q, [Bvec(id, 0, len)], 1, len, len)
  {
    var v := Bvec(id, 0, len);
    assert [v] == [] + [v];
    SizeSnoc([], v);
    assert Concat([] + [[v]]) == [] + [v] by {
      ConcatSnoc([], [v]);
    }
    assert Within(q, [v], [] + [[v]], 1, len, len);
  }

  lemma {:induction false} FewSectors(len: nat)
    requires len < TWO_32
    ensures len / 512 < TWO_32 / 512
  {
  }

  lemma {:induction false} OneVectorOk(q: Limits, id: nat, sector: nat, len: nat)
    requires 0 < len < TWO_32 && len % 512 == 0 && sector < 512
    ensures var b := OneVector(id, sector, len); BioOk(b) && CountOk(q, b) && Carries(b)
  {
    OneVectorData(q, id, len);
    FewSectors(len);
  }

  /** A counted bio that is not merged gets a request of its own. */
  lemma {:induction false} SubmitAlone(q: Limits, p: Pool, b: Bio)
    requires Ready(p.rqs) && Carries(b) && b.segValid && b.phys == 1 && !b.write
    ensures Submit(q, p, b, false, None, None) == p.(rqs := p.rqs + [Alone(b)], accepted := p.accepted + [b.id])
  {
  }

  lemma {:induction false} AloneIsRun(q: Limits, p: Pool, run: seq<Action>, b: Bio, p1: Pool)
    requires IsRun(q, p, run) && After(q, p, run) == p1 && Ready(p1.rqs)
    requires BioOk(b) && CountOk(q, b) && Carries(b) && b.segValid && b.phys == 1 && !b.write
    ensures var run' := run + [SubmitAction(b, false, None, None)];
            var p2 := p1.(rqs := p1.rqs + [Alone(b)], accepted := p1.accepted + [b.id]);
            IsRun(q, p, run') && After(q, p, run') == p2 && Ready(p2.rqs)
  {
    SubmitAlone(q, p1, b);
    RunExtends(q, p, run, SubmitAction(b, false, None, None));
  }

  lemma {:induction false} TwoAlone(q: Limits, b: Bio, c: Bio)
    requires BioOk(b) && CountOk(q, b) && Carries(b) && b.segValid && b.phys == 1 && !b.write
    requires BioOk(c) && CountOk(q, c) && Carries(c) && c.segValid && c.phys == 1 && !c.write
    ensures var run := [SubmitAction(b, false, None, None), SubmitAction(c, false, None, None)];
            var p := Pool([Alone(b), Alone(c)], [], [b.id, c.id]);
            IsRun(q, EMPTY, run) && After(q, EMPTY, run) == p && Ready(p.rqs)
  {
    var x, y := SubmitAction(b, false, None, None), SubmitAction(c, false, None, None);
    AloneIsRun(q, EMPTY, [], b, EMPTY);
    assert [] + [x] == [x] && [] + [Alone(b)] == [Alone(b)] && [] + [b.id] == [b.id];
    AloneIsRun(q, EMPTY, [x], c, Pool([Alone(b)], [], [b.id]));
    assert [x] + [y] == [x, y] && [Alone(b)] + [Alone(c)] == [Alone(b), Alone(c)] && [b.id] + [c.id] == [b.id, c.id];
  }

  lemma {:induction false} TwoRequests(q: Limits)
    ensures IsRun(q, EMPTY, FIRST_TWO) && After(q, EMPTY, FIRST_TWO) == TWO_WAITING && Ready(TWO_WAITING.rqs)
    ensures BioOk(THIRD) && CountOk(q, THIRD)
  {
    OneVectorOk(q, 0, 2, NEARLY_ALL);
    OneVectorOk(q, 1, 0, 512);
    OneVectorOk(q, 2, 1, 512);
    TwoAlone(q, LARGE, SECOND);
  }

  /** The second and third bio as one request. */
  const PAIR: Request := Request([SECOND, THIRD], 1, 0, 1024, 2, false, false, false)

  lemma {:induction false} ThirdIsTaken(q: Limits)
    requires !LengthsFit(q)
    ensures TryMerge(Alone(SECOND), THIRD) == BackMerge
    ensures MergeLimits(q, Alone(SECOND), THIRD, 0) == (Alone(SECOND).(nr := 2), THIRD, true)
    ensures LinkBack(Alone(SECOND).(nr := 2), THIRD) == PAIR
  {
    assert [SECOND][0 := SECOND] == [SECOND];
  }

  lemma {:induction false} WrappingPair(q: Limits)
    requires !LengthsFit(q) && Ready(TWO_WAITING.rqs) && Carries(THIRD)
    ensures Attempted(q, TWO_WAITING, THIRD, false, Some(1), Some(0)) == Some((PAIR, Alone(LARGE)))
    ensures HasData(PAIR) && HasData(Alone(LARGE))
    ensures PAIR.Sectors() + Alone(LARGE).Sectors() <= q.maxSectors && SeamSum(PAIR, Alone(LARGE)) == TWO_32
  {
    ThirdIsTaken(q);
  }

  lemma {:induction false} WrappedRun(q: Limits) returns (run: seq<Action>, rq: Request)
    requires !LengthsFit(q) && q.cluster && forall v, w :: q.joins(v, w)
    ensures IsRun(q, EMPTY, run) && rq in After(q, EMPTY, run).rqs && rq.dataLen != Bytes(rq.bios)
  {
    TwoRequests(q);
    WrappingPair(q);
    ThirdIsTaken(q);
    var last := SubmitAction(THIRD, false, Some(1), Some(0));
    run := FIRST_TWO + [last];
    RunExtends(q, EMPTY, FIRST_TWO, last);
    rq := WrappedMerge(q);
  }

  /** The length of the merged request is 512, that of its bios 2^32 + 512. */
  lemma {:induction false} WrappedMerge(q: Limits) returns (rq: Request)
    requires !LengthsFit(q) && q.cluster && forall v, w :: q.joins(v, w)
    requires Ready(TWO_WAITING.rqs) && Carries(THIRD)
    ensures rq in Submit(q, TWO_WAITING, THIRD, false, Some(1), Some(0)).rqs && rq.dataLen != Bytes(rq.bios)
  {
    WrappingPair(q);
    ThirdIsTaken(q);
    var (a, b, ok) := AttemptMerge(q, PAIR, Alone(LARGE));
    WrappedAttempt(q);
    rq := a;
    var rqs := TWO_WAITING.rqs[1 := PAIR];
    assert rqs[0] == Alone(LARGE) && rqs[1] == PAIR;
    assert Remove(rqs[1 := a][0 := b], 0)[0] == a;
  }

  lemma {:induction false} WrappedAttempt(q: Limits)
    requires !LengthsFit(q) && q.cluster && (forall v, w :: q.joins(v, w)) && HasData(PAIR) && HasData(Alone(LARGE))
    ensures var (a, b, ok) := AttemptMerge(q, PAIR, Alone(LARGE)); ok && a.dataLen != Bytes(a.bios)
  {
    var a := AttemptMerge(q, PAIR, Alone(LARGE)).0;
    assert |a.bios| == 3 && a.bios[2].size == NEARLY_ALL && a.bios[1].size == 512 && a.bios[0].size == 512;
    assert Bytes(a.bios[2..]) == NEARLY_ALL + Bytes(a.bios[2..][1..]);
    assert a.bios[1..][1..] == a.bios[2..];
    assert Bytes(a.bios[1..]) == 512 + Bytes(a.bios[2..]);
  }

  lemma {:induction false} RunExtends(q: Limits, p: Pool, run: seq<Action>, a: Action)
    requires IsRun(q, p, run) && Enabled(q, After(q, p, run), a)
    ensures IsRun(q, p, run + [a]) && After(q, p, run + [a]) == Exec(q, After(q, p, run), a)
    decreases |run|
  {
    if run == [] {
      assert run + [a] == [a] && [a][1..] == [];
    } else {
      assert (run + [a])[1..] == run[1..] + [a];
      RunExtends(q, Exec(q, p, run[0]), run[1..], a);
    }
  }

  // ---------- Peeking ----------

  /** blk_peek_request makes room for the drain buffer of the device. */
  function Peeked(rq: Request, drainSize: nat): Request {
    if drainSize != 0 && rq.dataLen != 0 then rq.(nr := rq.nr + 1) else rq
  }

  /** The entry that blk_rq_map_sg adds for the drain buffer is covered too. */
  lemma {:induction false} DrainEntryFits(q: Limits, run: seq<Action>, rq: Request, drainSize: nat, needed: bool)
    requires LengthsFit(q) && IsRun(q, EMPTY, run) && rq in After(q, EMPTY, run).sent
    ensures |Mapped(q, Data(rq.bios))| + (if drainSize != 0 && needed then 1 else 0) <= Peeked(rq, drainSize).nr
  {
    RunKeeps(q, EMPTY, run);
    ScatterlistFits(q, run, rq);
    assert BioOk(rq.bios[0]);
  }

  // ---------- The object ----------

  class MergeQueue {
    const q: Limits
    var rqs: seq<Request>
    var sent: seq<Request>
    var accepted: seq<nat>

    function View(): Pool
      reads this
    {
      Pool(rqs, sent, accepted)
    }

    constructor (limits: Limits)
      ensures q == limits && View() == EMPTY
    {
      q := limits;
      rqs, sent, accepted := [], [], [];
    }

    /** blk_recount_segments, if the bio has not been counted yet. */
    method Count(b: Bio) returns (r: Bio)
      requires Carries(b)
      ensures r == Counted(q, b)
    {
      r := b;
      if !b.segValid {
        DataOne(b);
        assert VecLists([b]) == [b.vecs];
        var n, front, back := Recalc(q, [b.vecs], b.segFront, b.segBack);
        r := b.(phys := n, segFront := front, segBack := back, segValid := true);
      }
    }

    /** ll_back_merge_fn and ll_front_merge_fn on request i. */
    method CheckLimits(i: nat, b: Bio, at: nat) returns (b': Bio, ok: bool)
      requires i < |rqs| && at < |rqs[i].bios| && Carries(rqs[i].bios[at]) && Carries(b)
      modifies `rqs
      ensures rqs == old(rqs)[i := MergeLimits(q, old(rqs[i]), b, at).0]
      ensures (b', ok) == (MergeLimits(q, old(rqs[i]), b, at).1, MergeLimits(q, old(rqs[i]), b, at).2)
    {
      var rq := rqs[i];
      if rq.dataLen / 512 + b.size / 512 > q.maxSectors % TWO_16 {
        rqs := rqs[i := rq.(nomerge := true)];
        return b, false;
      }
      var c := Count(rq.bios[at]);
      rq := rq.(bios := rq.bios[at := c]);
      b' := Count(b);
      if rq.nr + b'.phys > q.maxSegments {
        rqs := rqs[i := rq.(nomerge := true)];
        return b', false;
      }
      rqs := rqs[i := rq.(nr := rq.nr + b'.phys)];
      return b', true;
    }

    /** attempt_merge, up to where it takes the second request out of the queue. */
    method Attempt(a: Request, b: Request) returns (a': Request, b': Request, ok: bool)
      requires HasData(a) && HasData(b)
      ensures (a', b', ok) == AttemptMerge(q, a, b)
    {
      if a.nomerge || b.nomerge || (a.sector + a.dataLen / 512) % TWO_64 != b.sector
         || a.write != b.write || b.special {
        return a, b, false;
      }
      a', b', ok := MergeSegments(a, b);
      if ok {
        a' := a'.(bios := a'.bios + b'.bios, tail := |a'.bios| + b'.tail, dataLen := Add32(a'.dataLen, b'.dataLen));
      }
    }

    /** attempt_merge: request j behind request i. */
    method MergeInto(i: nat, j: nat)
      requires i < |rqs| && j < |rqs| && i != j && Ready(rqs)
      modifies `rqs
      ensures rqs == MergeNeighbours(q, old(rqs), i, j)
    {
      var a, b, ok := Attempt(rqs[i], rqs[j]);
      rqs := rqs[i := a][j := b];
      if ok {
        rqs := Remove(rqs, j);
      }
    }

    /** ll_merge_requests_fn */
    method MergeSegments(a: Request, b: Request) returns (a': Request, b': Request, ok: bool)
      requires HasData(a) && HasData(b)
      ensures (a', b', ok) == MergeCounts(q, a, b)
    {
      a', b' := a, b;
      var size := Add32(a.bios[a.tail].segBack, b.bios[0].segFront);
      if a.special || b.special || a.dataLen / 512 + b.dataLen / 512 > q.maxSectors {
        return a, b, false;
      }
      var total := a.nr + b.nr;
      if Adjoins(q, a.bios[a.tail], b.bios[0]) {
        if a.nr == 1 {
          a' := a.(bios := a.bios[0 := a.bios[0].(segFront := size)]);
        }
        if b.nr == 1 {
          b' := b.(bios := b.bios[b.tail := b.bios[b.tail].(segBack := size)]);
        }
        total := total - 1;
      }
      if total > q.maxSegments {
        return a', b', false;
      }
      return a'.(nr := total), b', true;
    }

    /** blk_rq_map_sg for a request, as the driver calls it. */
    method Map(rq: Request) returns (sg: seq<Bvec>)
      requires Size(Data(rq.bios)) < TWO_32
      ensures sg == Mapped(q, Data(rq.bios))
    {
      sg := MapSg(q, VecLists(rq.bios));
    }

    /** The end of __make_request for a bio that was not merged. */
    method NewFor(b: Bio, barrier: bool)
      requires Carries(b)
      modifies `rqs
      ensures rqs == AddNew(q, old(rqs), b, barrier)
    {
      var c := Count(b);
      rqs := rqs + [Request([c], 0, b.sector, b.size, c.phys, b.write, barrier, false)];
    }

    /** __make_request */
    method Make(b: Bio, barrier: bool, pick: Option<nat>, near: Option<nat>)
      requires Ready(rqs) && Carries(b)
      modifies this
      ensures View() == Submit(q, old(View()), b, barrier, pick, near)
    {
      accepted := accepted + [b.id];
      var kind := NoMerge;
      if !barrier && pick.Some? && pick.value < |rqs| {
        kind := TryMerge(rqs[pick.value], b);
      }
      assert kind == Kind(old(View()), b, barrier, pick);
      match kind {
        case NoMerge => NewFor(b, barrier);
        case BackMerge => MakeBack(b, pick.value, near);
        case FrontMerge => MakeFront(b, pick.value, near);
      }
    }

    /** What __make_request does once ll_back_merge_fn or ll_front_merge_fn has answered. */
    method Finish(i: nat, b: Bio, ok: bool, linked: Request, near: Option<nat>, back: bool, ghost was: seq<Request>)
      requires i < |rqs| && Ready(was) && Carries(b) && HasData(linked) && |was| == |rqs| && rqs == was[i := rqs[i]]
      modifies `rqs
      ensures rqs == Settle(q, was, i, old(rqs[i]), b, ok, linked, near, back)
    {
      if !ok {
        NewFor(b, false);
        return;
      }
      rqs := rqs[i := linked];
      assert rqs == was[i := linked];
      if near.Some? && near.value < |rqs| && near.value != i {
        if back {
          MergeInto(i, near.value);
        } else {
          MergeInto(near.value, i);
        }
      }
    }

    method MakeBack(b: Bio, i: nat, near: Option<nat>)
      requires i < |rqs| && Ready(rqs) && Carries(b)
      modifies `rqs
      ensures rqs == SubmitBack(q, old(rqs), b, i, near)
    {
      LimitsKeepData(q, rqs[i], b, rqs[i].tail);
      var b', ok := CheckLimits(i, b, rqs[i].tail);
      var rq := rqs[i];
      var linked := rq.(bios := rq.bios + [b'], tail := |rq.bios|, dataLen := Add32(rq.dataLen, b'.size));
      assert linked == LinkBack(rq, b');
      Finish(i, b', ok, linked, near, true, old(rqs));
    }

    method MakeFront(b: Bio, i: nat, near: Option<nat>)
      requires i < |rqs| && Ready(rqs) && Carries(b)
      modifies `rqs
      ensures rqs == SubmitFront(q, old(rqs), b, i, near)
    {
      LimitsKeepData(q, rqs[i], b, 0);
      var b', ok := CheckLimits(i, b, 0);
      var rq := rqs[i];
      var linked := rq.(bios := [b'] + rq.bios, tail := rq.tail + 1, sector := b'.sector,
                        dataLen := Add32(rq.dataLen, b'.size));
      assert linked == LinkFront(rq, b');
      Finish(i, b', ok, linked, near, false, old(rqs));
    }
  }
}
