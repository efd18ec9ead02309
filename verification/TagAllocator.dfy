/**
 Tags of a device that takes several commands at once: a bitmap of tags in use, the request that
 holds each tag, and the list of tagged requests.
 */
module TagAllocator {
  import opened Wrappers

  // The tag map of one queue.  bits and index have the real depth; busy lists the tagged requests,
  // the latest first; queue is the dispatch queue, to which requests are put back.
  datatype Tags = Tags(bits: seq<bool>, index: seq<Option<nat>>, maxDepth: nat,
                       tagOf: map<nat, nat>, async: set<nat>, busy: seq<nat>, queue: seq<nat>)

  /** The tags a request that nobody waits for may use: two are kept for the others if possible. */
  function AsyncLimit(maxDepth: nat): (n: nat)
    ensures n <= maxDepth && (maxDepth > 1 ==> 0 < n < maxDepth)
  {
    if maxDepth <= 1 then maxDepth else if maxDepth == 2 then 1 else maxDepth - 2
  }

  /** find_first_zero_bit */
  function FirstFree(bits: seq<bool>, limit: nat): (t: nat)
    requires limit <= |bits|
    ensures t <= limit && (forall i :: 0 <= i < t ==> bits[i]) && (t < limit ==> !bits[t])
    decreases limit
  {
    if limit == 0 then 0
    else
      var t := FirstFree(bits, limit - 1);
      if t < limit - 1 || !bits[limit - 1] then t else limit
  }

  lemma {:induction false} FirstFreeUnique(bits: seq<bool>, limit: nat, t: nat)
    requires t <= limit <= |bits| && (forall i :: 0 <= i < t ==> bits[i]) && (t < limit ==> !bits[t])
    ensures t == FirstFree(bits, limit)
  {
    if limit > 0 && (t < limit - 1 || (t < limit && !bits[t])) {
      FirstFreeUnique(bits, limit - 1, t);
    } else if limit > 0 {
      FirstFreeUnique(bits, limit - 1, limit - 1);
    }
  }

  function Limit(t: Tags, sync: bool): nat {
    if sync then t.maxDepth else AsyncLimit(t.maxDepth)
  }

  /** The tag blk_queue_start_tag would give; inFlight counts the requests of this kind being served. */
  function Choice(t: Tags, sync: bool, inFlight: nat): Option<nat>
    requires t.maxDepth <= |t.bits|
  {
    if !sync && t.maxDepth > 1 && inFlight > AsyncLimit(t.maxDepth) then None
    else if FirstFree(t.bits, Limit(t, sync)) < Limit(t, sync) then Some(FirstFree(t.bits, Limit(t, sync)))
    else None
  }

  /** blk_queue_start_tag, for a request that is not tagged yet: the request leaves the queue. */
  function Start(t: Tags, rq: nat, sync: bool, inFlight: nat): Tags
    requires t.maxDepth <= |t.bits| == |t.index|
  {
    var tag := Choice(t, sync, inFlight);
    if tag.None? then t
    else Assign(t, rq, sync, tag.value)
  }

  function Without(s: seq<nat>, x: nat): (r: seq<nat>)
    ensures forall y :: y in r <==> y in s && y != x
  {
    if s == [] then [] else if s[0] == x then Without(s[1..], x) else [s[0]] + Without(s[1..], x)
  }

  function Assign(t: Tags, rq: nat, sync: bool, tag: nat): Tags
    requires tag < |t.bits| == |t.index|
  {
    t.(bits := t.bits[tag := true], index := t.index[tag := Some(rq)], tagOf := t.tagOf[rq := tag],
       async := if sync then t.async - {rq} else t.async + {rq}, busy := [rq] + t.busy, queue := Without(t.queue, rq))
  }

  /** blk_queue_end_tag, for a request with a tag. */
  function End(t: Tags, rq: nat): Tags
    requires rq in t.tagOf && |t.bits| == |t.index|
  {
    var tag := t.tagOf[rq];
    if tag >= |t.bits| then t
    else
      t.(bits := t.bits[tag := false], index := t.index[tag := None], tagOf := t.tagOf - {rq},
         busy := Without(t.busy, rq))
  }

  // Overrun is not a return value: the old map is copied past the end of the new one.
  datatype Status = Ok | Busy | NoMemory | Overrun

  /** The depth init_tag_map settles for. */
  function Clamp(depth: nat, nrRequests: nat): nat {
    if depth > nrRequests * 2 then nrRequests * 2 else depth
  }

  /** blk_queue_resize_tags; memory says whether the new map could be allocated. */
  function Resize(t: Tags, newDepth: nat, nrRequests: nat, shared: bool, memory: bool): (r: (Tags, Status))
    requires |t.bits| == |t.index|
  {
    if newDepth <= |t.bits| then (t.(maxDepth := newDepth), Ok)
    else if shared then (t, Busy)
    else if !memory then (t, NoMemory)
    else if Clamp(newDepth, nrRequests) < |t.bits| then (t, Overrun)
    else
      var depth := Clamp(newDepth, nrRequests);
      (t.(maxDepth := depth,
          bits := t.bits + seq(depth - |t.bits|, _ => false),
          index := t.index + seq(depth - |t.index|, _ => None)), Ok)
  }

  /** blk_requeue_request without a barrier in progress: to the front of the queue. */
  function Requeue(t: Tags, rq: nat): Tags
    requires rq in t.tagOf && |t.bits| == |t.index|
  {
    var t' := End(t, rq);
    t'.(queue := [rq] + t'.queue)
  }

  // ---------- What every event keeps ----------

  /** A bit is set exactly where the index holds a request, and that request has this tag. */
  predicate Inv(t: Tags) {
    && t.maxDepth <= |t.bits| == |t.index|
    && (forall i :: 0 <= i < |t.bits| ==> (t.bits[i] <==> t.index[i].Some?))
    && (forall i :: 0 <= i < |t.bits| && t.index[i].Some? ==>
          t.index[i].value in t.tagOf && t.tagOf[t.index[i].value] == i)
    && (forall rq :: rq in t.tagOf ==> t.tagOf[rq] < |t.index| && t.index[t.tagOf[rq]] == Some(rq))
    && (forall rq :: rq in t.busy ==> rq in t.tagOf)
    && (forall rq :: rq in t.tagOf ==> rq in t.busy)
    && Distinct(t.busy)
  }

  /** Requests nobody waits for hold low tags only. */
  predicate AsyncLow(t: Tags) {
    forall rq :: rq in t.tagOf && rq in t.async ==> t.tagOf[rq] < AsyncLimit(t.maxDepth)
  }

  lemma {:induction false} WithoutDistinct(s: seq<nat>, x: nat)
    requires Distinct(s)
    ensures Distinct(Without(s, x))
  {
    if s != [] {
      WithoutDistinct(s[1..], x);
      var rest := Without(s[1..], x);
      assert s[0] !in s[1..];
      assert forall j :: 0 <= j < |rest| ==> rest[j] in s[1..];
    }
  }

  lemma {:induction false} StartKeeps(t: Tags, rq: nat, sync: bool, inFlight: nat)
    requires Inv(t) && rq !in t.tagOf
    ensures Inv(Start(t, rq, sync, inFlight))
    ensures AsyncLow(t) ==> AsyncLow(Start(t, rq, sync, inFlight))
    ensures Choice(t, sync, inFlight).Some? ==> rq in Start(t, rq, sync, inFlight).tagOf
  {
  }

  lemma {:induction false} EndKeeps(t: Tags, rq: nat)
    requires Inv(t) && rq in t.tagOf
    ensures Inv(End(t, rq))
    ensures AsyncLow(t) ==> AsyncLow(End(t, rq))
    ensures rq !in End(t, rq).tagOf
  {
    WithoutDistinct(t.busy, rq);
  }

  /** Every outstanding tag survives a resize, unless the new map is clamped below the old one. */
  lemma {:induction false} ResizeKeeps(t: Tags, newDepth: nat, nrRequests: nat, shared: bool, memory: bool)
    requires Inv(t)
    ensures var (t', status) := Resize(t, newDepth, nrRequests, shared, memory);
            && (status == Overrun <==> !shared && memory && 2 * nrRequests < |t.bits| < newDepth)
            && (status != Overrun ==>
                  && Inv(t') && t'.tagOf == t.tagOf && t'.busy == t.busy
                  && (forall i :: 0 <= i < |t.index| ==> t'.bits[i] == t.bits[i] && t'.index[i] == t.index[i])
                  && (AsyncLow(t) && t.maxDepth <= t'.maxDepth ==> AsyncLow(t')))
  {
  }

  /** Three tags are replaced by two, one request being allowed. */
  lemma {:induction false} ResizeOverruns()
    ensures Resize(Fresh(3, []), 4, 1, false, true).1 == Overrun
  {
  }

  /** Unless it was made smaller, a map of two tags or more has one left for a request that is waited for. */
  lemma {:induction false} SyncGetsTag(t: Tags, inFlight: nat)
    requires Inv(t) && AsyncLow(t) && t.maxDepth >= 2 && forall rq :: rq in t.tagOf ==> rq in t.async
    ensures Choice(t, true, inFlight).Some?
  {
    var i := t.maxDepth - 1;
    assert !t.bits[i];
  }

  // ---------- Putting everything back ----------

  /** blk_queue_invalidate_tags */
  function Invalidate(t: Tags): Tags
    requires Inv(t)
    decreases |t.busy|
  {
    if t.busy == [] then t
    else
      EndKeeps(t, t.busy[0]);
      FirstGoes(t.busy);
      Invalidate(Requeue(t, t.busy[0]))
  }

  lemma {:induction false} FirstGoes(s: seq<nat>)
    requires s != [] && Distinct(s)
    ensures Without(s, s[0]) == s[1..]
  {
    NotThere(s[1..], s[0]);
  }

  lemma {:induction false} NotThere(s: seq<nat>, x: nat)
    requires x !in s
    ensures Without(s, x) == s
  {
    if s != [] {
      NotThere(s[1..], x);
    }
  }

  lemma {:induction false} NothingTagged(t: Tags)
    requires Inv(t) && t.busy == []
    ensures t.tagOf == map[] && forall i :: 0 <= i < |t.bits| ==> !t.bits[i] && t.index[i] == None
  {
    assert t.tagOf.Keys == {};
  }

  lemma {:induction false} RequeueFirst(t: Tags)
    requires Inv(t) && t.busy != []
    ensures var t1 := Requeue(t, t.busy[0]);
            Inv(t1) && t1.busy == t.busy[1..] && t1.queue == [t.busy[0]] + t.queue
  {
    EndKeeps(t, t.busy[0]);
    FirstGoes(t.busy);
  }

  lemma {:induction false} InvalidateRequeues(t: Tags)
    requires Inv(t)
    ensures Inv(Invalidate(t)) && Invalidate(t).busy == [] && Invalidate(t).queue == Reverse(t.busy) + t.queue
    decreases |t.busy|
  {
    if t.busy == [] {
      assert Reverse([]) + t.queue == t.queue;
    } else {
      RequeueFirst(t);
      InvalidateRequeues(Requeue(t, t.busy[0]));
      InFront(t.busy, t.queue);
    }
  }

  lemma {:induction false} InFront(busy: seq<nat>, queue: seq<nat>)
    requires busy != []
    ensures Reverse(busy[1..]) + ([busy[0]] + queue) == Reverse(busy) + queue
  {
  }

  /** Nothing stays tagged, and the requests are back in front, the last of the busy list first. */
  lemma {:induction false} InvalidateRestores(t: Tags)
    requires Inv(t)
    ensures var t' := Invalidate(t);
            && Inv(t') && t'.busy == [] && t'.tagOf == map[]
            && (forall i :: 0 <= i < |t'.bits| ==> !t'.bits[i] && t'.index[i] == None)
            && t'.queue == Reverse(t.busy) + t.queue
  {
    InvalidateRequeues(t);
    NothingTagged(Invalidate(t));
  }

  // ---------- Every run ----------

  datatype Action =
    | StartAction(rq: nat, sync: bool, inFlight: nat)
    | EndAction(rq: nat)
    | ResizeAction(newDepth: nat, nrRequests: nat, shared: bool, memory: bool)
    | InvalidateAction

  /** Tagging a tagged request and ending an untagged one are BUGs; nothing is known after an overrun. */
  predicate Enabled(t: Tags, a: Action) {
    match a
    case StartAction(rq, _, _) => rq !in t.tagOf
    case EndAction(rq) => rq in t.tagOf
    case ResizeAction(newDepth, nrRequests, shared, memory) =>
      |t.bits| == |t.index| && Resize(t, newDepth, nrRequests, shared, memory).1 != Overrun
    case InvalidateAction => true
  }

  function Exec(t: Tags, a: Action): Tags
    requires Inv(t) && Enabled(t, a)
  {
    match a
    case StartAction(rq, sync, inFlight) => Start(t, rq, sync, inFlight)
    case EndAction(rq) => End(t, rq)
    case ResizeAction(newDepth, nrRequests, shared, memory) => Resize(t, newDepth, nrRequests, shared, memory).0
    case InvalidateAction => Invalidate(t)
  }

  lemma {:induction false} ExecKeeps(t: Tags, a: Action)
    requires Inv(t) && Enabled(t, a)
    ensures Inv(Exec(t, a))
    ensures AsyncLow(t) && t.maxDepth <= Exec(t, a).maxDepth ==> AsyncLow(Exec(t, a))
  {
    match a
    case StartAction(rq, sync, inFlight) => StartKeeps(t, rq, sync, inFlight);
    case EndAction(rq) => EndKeeps(t, rq);
    case ResizeAction(newDepth, nrRequests, shared, memory) => ResizeKeeps(t, newDepth, nrRequests, shared, memory);
    case InvalidateAction => InvalidateRestores(t);
  }

  ghost predicate IsRun(t: Tags, run: seq<Action>)
    requires Inv(t)
    decreases |run|
  {
    run == [] || (Enabled(t, run[0]) && (ExecKeeps(t, run[0]); IsRun(Exec(t, run[0]), run[1..])))
  }

  /** No event of the run makes the depth smaller. */
  ghost predicate NeverShrinks(t: Tags, run: seq<Action>)
    requires Inv(t) && IsRun(t, run)
    decreases |run|
  {
    run == [] ||
    (ExecKeeps(t, run[0]); t.maxDepth <= Exec(t, run[0]).maxDepth && NeverShrinks(Exec(t, run[0]), run[1..]))
  }

  ghost function After(t: Tags, run: seq<Action>): (r: Tags)
    requires Inv(t) && IsRun(t, run)
    ensures Inv(r)
    decreases |run|
  {
    if run == [] then t else ExecKeeps(t, run[0]); After(Exec(t, run[0]), run[1..])
  }

  function Fresh(depth: nat, queue: seq<nat>): (t: Tags)
    ensures Inv(t) && AsyncLow(t)
  {
    Tags(seq(depth, _ => false), seq(depth, _ => None), depth, map[], {}, [], queue)
  }

  /** Over every run a tag bit is set exactly if the index holds the one request that has this tag. */
  lemma {:induction false} TagsUnique(depth: nat, queue: seq<nat>, run: seq<Action>)
    requires IsRun(Fresh(depth, queue), run)
    ensures var t := After(Fresh(depth, queue), run);
            && |t.bits| == |t.index|
            && (forall i :: 0 <= i < |t.bits| ==>
                  (t.bits[i] <==> exists rq :: rq in t.tagOf && t.tagOf[rq] == i && t.index[i] == Some(rq)))
            && (forall a, b :: a in t.tagOf && b in t.tagOf && t.tagOf[a] == t.tagOf[b] ==> a == b)
  {
    var t := After(Fresh(depth, queue), run);
    forall i | 0 <= i < |t.bits|
      ensures t.bits[i] <==> exists rq :: rq in t.tagOf && t.tagOf[rq] == i && t.index[i] == Some(rq)
    {
      if t.bits[i] {
        assert t.index[i].value in t.tagOf;
      }
    }
  }

  lemma {:induction false} RunKeepsLow(t: Tags, run: seq<Action>)
    requires Inv(t) && AsyncLow(t) && IsRun(t, run) && NeverShrinks(t, run)
    ensures AsyncLow(After(t, run))
    ensures t.maxDepth <= After(t, run).maxDepth
    decreases |run|
  {
    if run != [] {
      ExecKeeps(t, run[0]);
      RunKeepsLow(Exec(t, run[0]), run[1..]);
    }
  }

  // ---------- The order of starts ----------

  /** The request that the event gives a tag, if any. */
  function Given(t: Tags, a: Action): seq<nat>
    requires Inv(t)
  {
    if a.StartAction? && Choice(t, a.sync, a.inFlight).Some? then [a.rq] else []
  }

  /** The requests that were given tags in a run, one entry for each time. */
  ghost function Starts(t: Tags, run: seq<Action>): seq<nat>
    requires Inv(t) && IsRun(t, run)
    decreases |run|
  {
    if run == [] then []
    else
      ExecKeeps(t, run[0]);
      Given(t, run[0]) + Starts(Exec(t, run[0]), run[1..])
  }

  /** When x was started last; 0 is never. */
  function LastStart(starts: seq<nat>, x: nat): (n: nat)
    ensures n <= |starts| && (n > 0 <==> x in starts)
  {
    if starts == [] then 0
    else if starts[|starts| - 1] == x then |starts|
    else LastStart(starts[..|starts| - 1], x)
  }

  /** Every request of the list was started, and each later than those before it. */
  predicate InStartOrder(s: seq<nat>, starts: seq<nat>) {
    && (forall i :: 0 <= i < |s| ==> LastStart(starts, s[i]) > 0)
    && (forall i, j :: 0 <= i < j < |s| ==> LastStart(starts, s[i]) < LastStart(starts, s[j]))
  }

  /** The same for a list that has the latest first. */
  predicate LatestFirst(s: seq<nat>, starts: seq<nat>) {
    && (forall i :: 0 <= i < |s| ==> LastStart(starts, s[i]) > 0)
    && (forall i, j :: 0 <= i < j < |s| ==> LastStart(starts, s[j]) < LastStart(starts, s[i]))
  }

  lemma {:induction false} LastStartAppend(starts: seq<nat>, rq: nat, x: nat)
    ensures LastStart(starts + [rq], x) == if x == rq then |starts| + 1 else LastStart(starts, x)
  {
    assert (starts + [rq])[..|starts|] == starts;
  }

  lemma {:induction false} StartedFirst(s: seq<nat>, starts: seq<nat>, rq: nat)
    requires LatestFirst(s, starts) && rq !in s
    ensures LatestFirst([rq] + s, starts + [rq])
  {
    forall i | 0 <= i < |s|
      ensures LastStart(starts + [rq], s[i]) == LastStart(starts, s[i])
    {
      LastStartAppend(starts, rq, s[i]);
    }
    LastStartAppend(starts, rq, rq);
  }

  lemma {:induction false} LatestFirstTail(s: seq<nat>, starts: seq<nat>)
    requires s != [] && LatestFirst(s, starts)
    ensures LatestFirst(s[1..], starts) && LastStart(starts, s[0]) > 0
    ensures forall y :: y in s[1..] ==> LastStart(starts, y) < LastStart(starts, s[0])
  {
  }

  lemma {:induction false} LatestFirstCons(x: nat, s: seq<nat>, starts: seq<nat>)
    requires LatestFirst(s, starts) && LastStart(starts, x) > 0
    requires forall y :: y in s ==> LastStart(starts, y) < LastStart(starts, x)
    ensures LatestFirst([x] + s, starts)
  {
  }

  lemma {:induction false} WithoutLatestFirst(s: seq<nat>, starts: seq<nat>, x: nat)
    requires LatestFirst(s, starts)
    ensures LatestFirst(Without(s, x), starts)
  {
    if s != [] {
      LatestFirstTail(s, starts);
      WithoutLatestFirst(s[1..], starts, x);
      LatestFirstCons(s[0], Without(s[1..], x), starts);
    }
  }

  lemma {:induction false} ReversedIsInOrder(s: seq<nat>, starts: seq<nat>)
    requires LatestFirst(s, starts)
    ensures InStartOrder(Reverse(s), starts)
  {
    forall i | 0 <= i < |s|
      ensures Reverse(s)[i] == s[|s| - 1 - i]
    {
      ReverseAt(s, i);
    }
  }

  lemma {:induction false} RunStarts(t: Tags, run: seq<Action>, starts: seq<nat>)
    requires Inv(t) && IsRun(t, run) && LatestFirst(t.busy, starts)
    ensures LatestFirst(After(t, run).busy, starts + Starts(t, run))
    decreases |run|
  {
    if run == [] {
      assert starts + [] == starts;
    } else {
      ExecKeeps(t, run[0]);
      ExecStarts(t, run[0], starts);
      RunStarts(Exec(t, run[0]), run[1..], starts + Given(t, run[0]));
      Associates(starts, Given(t, run[0]), Starts(Exec(t, run[0]), run[1..]));
    }
  }

  lemma {:induction false} Associates(a: seq<nat>, b: seq<nat>, c: seq<nat>)
    ensures a + b + c == a + (b + c)
  {
  }

  lemma {:induction false} ExecStarts(t: Tags, a: Action, starts: seq<nat>)
    requires Inv(t) && Enabled(t, a) && LatestFirst(t.busy, starts)
    ensures LatestFirst(Exec(t, a).busy, starts + Given(t, a))
  {
    assert starts + [] == starts;
    match a
    case StartAction(rq, sync, inFlight) =>
      if Choice(t, sync, inFlight).Some? {
        StartedFirst(t.busy, starts, rq);
      }
    case EndAction(rq) => WithoutLatestFirst(t.busy, starts, rq);
    case ResizeAction(newDepth, nrRequests, shared, memory) => ResizeKeeps(t, newDepth, nrRequests, shared, memory);
    case InvalidateAction => InvalidateRestores(t);
  }

  /** What invalidating puts back is the tagged requests, each once, in the order of their starts. */
  lemma {:induction false} RestoresInOrder(t: Tags, starts: seq<nat>)
    requires Inv(t) && LatestFirst(t.busy, starts)
    ensures var back := Reverse(t.busy);
            && Invalidate(t).queue == back + t.queue
            && (forall rq :: rq in back <==> rq in t.tagOf) && Distinct(back)
            && InStartOrder(back, starts)
  {
    InvalidateRestores(t);
    ReverseMembers(t.busy);
    ReversedIsInOrder(t.busy, starts);
  }

  /** After every run, invalidating puts exactly the outstanding requests in front, in the order of their starts. */
  lemma {:induction false} RestoredInStartOrder(depth: nat, queue: seq<nat>, run: seq<Action>)
    requires IsRun(Fresh(depth, queue), run)
    ensures var t := After(Fresh(depth, queue), run);
            exists back ::
              && Invalidate(t).queue == back + t.queue
              && (forall rq :: rq in back <==> rq in t.tagOf) && Distinct(back)
              && InStartOrder(back, Starts(Fresh(depth, queue), run))
  {
    var starts := Starts(Fresh(depth, queue), run);
    RunStarts(Fresh(depth, queue), run, []);
    assert [] + starts == starts;
    RestoresInOrder(After(Fresh(depth, queue), run), starts);
  }

  /** Without shrinking, requests nobody waits for never alone stop one that is waited for. */
  lemma {:induction false} SyncNeverStarved(depth: nat, queue: seq<nat>, run: seq<Action>, inFlight: nat)
    requires depth >= 2 && IsRun(Fresh(depth, queue), run) && NeverShrinks(Fresh(depth, queue), run)
    ensures var t := After(Fresh(depth, queue), run);
            (forall rq :: rq in t.tagOf ==> rq in t.async) ==> Choice(t, true, inFlight).Some?
  {
    RunKeepsLow(Fresh(depth, queue), run);
    var t := After(Fresh(depth, queue), run);
    if forall rq :: rq in t.tagOf ==> rq in t.async {
      SyncGetsTag(t, inFlight);
    }
  }

  // ---------- The object ----------

  class TagQueue {
    var tagMap: array<bool>
    var tagIndex: array<Option<nat>>
    var maxDepth: nat
    var tagOf: map<nat, nat>
    var async: set<nat>
    var busy: seq<nat>
    var queue: seq<nat>

    function View(): Tags
      reads this, tagMap, tagIndex
    {
      Tags(tagMap[..], tagIndex[..], maxDepth, tagOf, async, busy, queue)
    }

    constructor (depth: nat, queue: seq<nat>)
      ensures fresh(tagMap) && fresh(tagIndex) && View() == Fresh(depth, queue)
    {
      tagMap := new bool[depth](_ => false);
      tagIndex := new Option<nat>[depth](_ => None);
      maxDepth, tagOf, async, busy := depth, map[], {}, [];
      this.queue := queue;
    }

    /** find_first_zero_bit */
    method FindFree(limit: nat) returns (tag: nat)
      requires limit <= tagMap.Length
      ensures tag == FirstFree(tagMap[..], limit)
    {
      tag := 0;
      while tag < limit && tagMap[tag]
        invariant 0 <= tag <= limit && forall i :: 0 <= i < tag ==> tagMap[i]
      {
        tag := tag + 1;
      }
      FirstFreeUnique(tagMap[..], limit, tag);
    }

    /** blk_queue_start_tag; false is the return value 1, no tag. */
    method StartTag(rq: nat, sync: bool, inFlight: nat) returns (ok: bool)
      requires Inv(View()) && rq !in tagOf
      modifies this, tagMap, tagIndex
      ensures tagMap == old(tagMap) && tagIndex == old(tagIndex)
      ensures View() == Start(old(View()), rq, sync, inFlight)
      ensures ok <==> Choice(old(View()), sync, inFlight).Some?
    {
      var limit := maxDepth;
      if !sync && limit > 1 {
        limit := limit - 2;
        if limit == 0 {
          limit := 1;
        }
        if inFlight > limit {
          return false;
        }
      }
      var tag := FindFree(limit);
      if tag >= limit {
        return false;
      }
      Take(rq, sync, tag);
      return true;
    }

    /** The request gets the tag and leaves the queue for the busy list. */
    method Take(rq: nat, sync: bool, tag: nat)
      requires tag < tagMap.Length == tagIndex.Length
      modifies this, tagMap, tagIndex
      ensures tagMap == old(tagMap) && tagIndex == old(tagIndex)
      ensures View() == Assign(old(View()), rq, sync, tag)
    {
      tagMap[tag] := true;
      tagIndex[tag] := Some(rq);
      tagOf := tagOf[rq := tag];
      async := if sync then async - {rq} else async + {rq};
      queue := Without(queue, rq);
      busy := [rq] + busy;
      assert tagMap[..] == old(tagMap[..])[tag := true];
      assert tagIndex[..] == old(tagIndex[..])[tag := Some(rq)];
    }

    /** blk_queue_end_tag */
    method EndTag(rq: nat)
      requires Inv(View()) && rq in tagOf
      modifies this, tagMap, tagIndex
      ensures tagMap == old(tagMap) && tagIndex == old(tagIndex)
      ensures View() == End(old(View()), rq)
    {
      var tag := tagOf[rq];
      busy := Without(busy, rq);
      tagOf := tagOf - {rq};
      tagIndex[tag] := None;
      tagMap[tag] := false;
      assert tagMap[..] == old(tagMap[..])[tag := false];
      assert tagIndex[..] == old(tagIndex[..])[tag := None];
    }

    /** blk_queue_resize_tags */
    method ResizeTags(newDepth: nat, nrRequests: nat, shared: bool, memory: bool) returns (status: Status)
      requires Inv(View())
      modifies this
      ensures (View(), status) == Resize(old(View()), newDepth, nrRequests, shared, memory)
    {
      if newDepth <= tagMap.Length {
        maxDepth := newDepth;
        return Ok;
      }
      if shared {
        return Busy;
      }
      if !memory {
        return NoMemory;
      }
      var depth := if newDepth > nrRequests * 2 then nrRequests * 2 else newDepth;
      if depth < tagMap.Length {
        return Overrun;
      }
      var bits, index := Copied(depth);
      tagMap, tagIndex, maxDepth := bits, index, depth;
      return Ok;
    }

    /** init_tag_map, and the copy of the old map into the new one. */
    method Copied(depth: nat) returns (bits: array<bool>, index: array<Option<nat>>)
      requires tagMap.Length == tagIndex.Length <= depth
      ensures fresh(bits) && fresh(index)
      ensures bits[..] == tagMap[..] + seq(depth - tagMap.Length, _ => false)
      ensures index[..] == tagIndex[..] + seq(depth - tagIndex.Length, _ => None)
    {
      bits := new bool[depth](_ => false);
      index := new Option<nat>[depth](_ => None);
      for i := 0 to tagMap.Length
        invariant forall j :: 0 <= j < depth ==> bits[j] == if j < i then tagMap[j] else false
        invariant forall j :: 0 <= j < depth ==> index[j] == if j < i then tagIndex[j] else None
      {
        bits[i] := tagMap[i];
        index[i] := tagIndex[i];
      }
    }

    /** blk_queue_invalidate_tags */
    method InvalidateTags()
      requires Inv(View())
      modifies this, tagMap, tagIndex
      ensures tagMap == old(tagMap) && tagIndex == old(tagIndex)
      ensures View() == Invalidate(old(View()))
    {
      ghost var t := View();
      while busy != []
        invariant tagMap == old(tagMap) && tagIndex == old(tagIndex)
        invariant Inv(View()) && Invalidate(View()) == Invalidate(t)
        decreases |busy|
      {
        var rq := busy[0];
        EndKeeps(View(), rq);
        FirstGoes(busy);
        EndTag(rq);
        queue := [rq] + queue;
      }
    }
  }
}
