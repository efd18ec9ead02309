/**
 Physical segments of the data of a request.  A segmentation cuts the bio vectors into runs that
 the device may take as one piece; blk_rq_map_sg and __blk_recalc_rq_segments are two greedy
 segmentations, and nr_phys_segments is the size of some segmentation.
 */
module Segments {
  const TWO_32: nat := 0x1_0000_0000

  /** The sum of two unsigned ints in an unsigned int. */
  function Add32(a: nat, b: nat): nat {
    if a + b < TWO_32 then a + b else (a + b) % TWO_32
  }

  // A piece of a page.
  datatype Bvec = Bvec(page: nat, offset: nat, len: nat)

  // The limits of a queue.  joins stands for BIOVEC_PHYS_MERGEABLE (which an architecture may
  // define) together with BIOVEC_SEG_BOUNDARY; high for a page above the bounce limit.
  datatype Limits = Limits(cluster: bool, maxSegmentSize: nat, maxSegments: nat, maxSectors: nat,
                           joins: (Bvec, Bvec) -> bool, high: Bvec -> bool)

  function Size(vs: seq<Bvec>): nat {
    if vs == [] then 0 else Size(vs[..|vs| - 1]) + vs[|vs| - 1].len
  }

  function Last<T>(s: seq<T>): T
    requires s != []
  {
    s[|s| - 1]
  }

  function Init<T>(s: seq<T>): seq<T>
    requires s != []
  {
    s[..|s| - 1]
  }

  function Concat(rs: seq<seq<Bvec>>): seq<Bvec> {
    if rs == [] then [] else Concat(Init(rs)) + Last(rs)
  }

  // ---------- Segmentations ----------

  /** One piece for the device: a single vector, or vectors that join and are not too large together. */
  predicate RunOk(q: Limits, run: seq<Bvec>) {
    && run != []
    && (|run| > 1 ==>
          && q.cluster && Size(run) <= q.maxSegmentSize
          && forall i :: 0 < i < |run| ==> q.joins(run[i - 1], run[i]))
  }

  predicate Segmentation(q: Limits, vs: seq<Bvec>, rs: seq<seq<Bvec>>) {
    Concat(rs) == vs && forall r :: r in rs ==> RunOk(q, r)
  }

  /** The vector may be added to the run. */
  predicate Fits(q: Limits, run: seq<Bvec>, v: Bvec)
    requires run != []
  {
    q.cluster && Size(run) + v.len <= q.maxSegmentSize && q.joins(Last(run), v)
  }

  /** The vector starts a new run; with bounce set, high pages stay apart. */
  predicate Opens(q: Limits, rs: seq<seq<Bvec>>, v: Bvec, bounce: bool) {
    || rs == []
    || Last(rs) == []
    || !Fits(q, Last(rs), v)
    || (bounce && (q.high(v) || q.high(Last(rs)[0])))
  }

  function Extend(rs: seq<seq<Bvec>>, v: Bvec, opens: bool): (r: seq<seq<Bvec>>)
    requires rs == [] ==> opens
  {
    if opens then rs + [[v]] else Init(rs) + [Last(rs) + [v]]
  }

  /** The greedy segmentation: of blk_rq_map_sg, or with bounce set of __blk_recalc_rq_segments. */
  function Greedy(q: Limits, vs: seq<Bvec>, bounce: bool): (rs: seq<seq<Bvec>>) {
    if vs == [] then []
    else
      var rs := Greedy(q, Init(vs), bounce);
      Extend(rs, Last(vs), Opens(q, rs, Last(vs), bounce))
  }

  // ---------- Sizes and concatenations ----------

  lemma {:induction false} SizeSnoc(vs: seq<Bvec>, v: Bvec)
    ensures Size(vs + [v]) == Size(vs) + v.len
  {
    assert Init(vs + [v]) == vs;
  }

  lemma {:induction false} SizeAppend(vs: seq<Bvec>, ws: seq<Bvec>)
    ensures Size(vs + ws) == Size(vs) + Size(ws)
  {
    if ws == [] {
      assert vs + ws == vs;
    } else {
      SizeAppend(vs, Init(ws));
      assert vs + ws == (vs + Init(ws)) + [Last(ws)];
      SizeSnoc(vs + Init(ws), Last(ws));
    }
  }

  lemma {:induction false} ConcatSnoc(rs: seq<seq<Bvec>>, r: seq<Bvec>)
    ensures Concat(rs + [r]) == Concat(rs) + r
  {
    assert Init(rs + [r]) == rs;
  }

  lemma {:induction false} ConcatAppend(rs: seq<seq<Bvec>>, ts: seq<seq<Bvec>>)
    ensures Concat(rs + ts) == Concat(rs) + Concat(ts)
  {
    if ts == [] {
      assert rs + ts == rs;
    } else {
      ConcatAppend(rs, Init(ts));
      assert rs + ts == (rs + Init(ts)) + [Last(ts)];
      ConcatSnoc(rs + Init(ts), Last(ts));
    }
  }

  lemma {:induction false} ConcatExtend(rs: seq<seq<Bvec>>, v: Bvec, opens: bool)
    requires rs == [] ==> opens
    ensures Concat(Extend(rs, v, opens)) == Concat(rs) + [v]
  {
    if opens {
      ConcatSnoc(rs, [v]);
    } else {
      ConcatSnoc(Init(rs), Last(rs) + [v]);
    }
  }

  // ---------- The greedy segmentations are segmentations ----------

  lemma {:induction false} RunGrows(q: Limits, run: seq<Bvec>, v: Bvec)
    requires RunOk(q, run) && Fits(q, run, v)
    ensures RunOk(q, run + [v])
  {
    SizeSnoc(run, v);
  }

  lemma {:induction false} RunShrinks(q: Limits, run: seq<Bvec>)
    requires RunOk(q, run) && |run| > 1
    ensures RunOk(q, Init(run)) && Fits(q, Init(run), Last(run))
  {
    assert run == Init(run) + [Last(run)];
  }

  lemma {:induction false} GreedyIsSegmentation(q: Limits, vs: seq<Bvec>, bounce: bool)
    ensures Segmentation(q, vs, Greedy(q, vs, bounce))
  {
    if vs != [] {
      var rs, v := Greedy(q, Init(vs), bounce), Last(vs);
      GreedyIsSegmentation(q, Init(vs), bounce);
      var opens := Opens(q, rs, v, bounce);
      ConcatExtend(rs, v, opens);
      assert Init(vs) + [v] == vs;
      if !opens {
        assert Last(rs) in rs;
        RunGrows(q, Last(rs), v);
      }
    }
  }

  // ---------- The greedy segmentation is the smallest ----------

  /** Dropping the last vector of a segmentation. */
  lemma {:induction false} DropVector(q: Limits, rs: seq<seq<Bvec>>)
    requires rs != [] && Segmentation(q, Concat(rs), rs)
    ensures Concat(rs) != []
    ensures |Last(rs)| == 1 ==> Segmentation(q, Init(Concat(rs)), Init(rs))
    ensures |Last(rs)| > 1 ==> Segmentation(q, Init(Concat(rs)), Init(rs) + [Init(Last(rs))])
  {
    var run := Last(rs);
    assert run in rs;
    assert Init(Concat(rs)) == Concat(Init(rs)) + Init(run);
    if |run| == 1 {
      assert Concat(Init(rs)) + [] == Concat(Init(rs));
    } else {
      ConcatSnoc(Init(rs), Init(run));
      RunShrinks(q, run);
    }
  }

  /** No segmentation has fewer runs, and none with as few leaves a smaller last run. */
  lemma {:induction false} GreedyIsLeast(q: Limits, vs: seq<Bvec>, rs: seq<seq<Bvec>>)
    requires Segmentation(q, vs, rs)
    ensures |Greedy(q, vs, false)| <= |rs|
    ensures vs != [] && |Greedy(q, vs, false)| == |rs| ==> Size(Last(Greedy(q, vs, false))) <= Size(Last(rs))
  {
    if vs == [] {
    } else {
      var v := Last(vs);
      DropVector(q, rs);
      var run := Last(rs);
      assert run in rs;
      assert v == Last(run);
      assert run == Init(run) + [v];
      SizeSnoc(Init(run), v);
      if |run| == 1 {
        GreedyIsLeast(q, Init(vs), Init(rs));
        LastStep(q, vs);
      } else {
        var ts := Init(rs) + [Init(run)];
        GreedyIsLeast(q, Init(vs), ts);
        RunShrinks(q, run);
        LastStep(q, vs);
        GreedyIsSegmentation(q, Init(vs), false);
        if |Greedy(q, Init(vs), false)| == |ts| {
          GreedyKeepsUp(q, vs, run);
        }
      }
    }
  }

  lemma {:induction false} LastStep(q: Limits, vs: seq<Bvec>)
    requires vs != []
    ensures var g, g' := Greedy(q, Init(vs), false), Greedy(q, vs, false);
            && |g'| == (if Opens(q, g, Last(vs), false) then |g| + 1 else |g|)
            && g' != []
            && Size(Last(g')) == Last(vs).len + (if Opens(q, g, Last(vs), false) then 0 else Size(Last(g)))
  {
    var g := Greedy(q, Init(vs), false);
    if Opens(q, g, Last(vs), false) {
      assert Size([Last(vs)]) == Size([]) + Last(vs).len;
    } else {
      SizeSnoc(Last(g), Last(vs));
    }
  }

  /** A greedy run no larger than one that takes the vector takes it too. */
  lemma {:induction false} GreedyKeepsUp(q: Limits, vs: seq<Bvec>, run: seq<Bvec>)
    requires vs != [] && |run| > 1 && RunOk(q, run) && |vs| > 1
    requires Last(run) == Last(vs) && Last(Init(run)) == Last(Init(vs))
    requires Segmentation(q, Init(vs), Greedy(q, Init(vs), false))
    requires Size(Last(Greedy(q, Init(vs), false))) <= Size(Init(run))
    ensures !Opens(q, Greedy(q, Init(vs), false), Last(vs), false)
  {
    var g := Greedy(q, Init(vs), false);
    RunShrinks(q, run);
    assert Last(g) in g;
    assert Last(Last(g)) == Last(Concat(g));
  }

  // ---------- What nr_phys_segments and the cached sizes stand for ----------

  /** Some segmentation has n runs, its first no larger than front and its last no larger than back. */
  ghost predicate Bounded(q: Limits, vs: seq<Bvec>, n: nat, front: nat, back: nat) {
    exists rs :: Within(q, vs, rs, n, front, back)
  }

  ghost predicate Within(q: Limits, vs: seq<Bvec>, rs: seq<seq<Bvec>>, n: nat, front: nat, back: nat) {
    && n > 0 && |rs| == n && Segmentation(q, vs, rs)
    && Size(rs[0]) <= front && Size(Last(rs)) <= back
  }

  /** blk_rq_map_sg needs no more entries than nr_phys_segments. */
  lemma {:induction false} MapWithinCount(q: Limits, vs: seq<Bvec>, n: nat, front: nat, back: nat)
    requires Bounded(q, vs, n, front, back)
    ensures 0 < |Greedy(q, vs, false)| <= n
  {
    var rs :| Within(q, vs, rs, n, front, back);
    GreedyIsLeast(q, vs, rs);
    GreedyIsSegmentation(q, vs, false);
    assert Last(rs) in rs;
  }

  lemma {:induction false} PartsWithin(rs: seq<seq<Bvec>>, i: nat)
    requires i < |rs|
    ensures Size(rs[i]) <= Size(Concat(rs))
    decreases |rs|
  {
    SizeAppend(Concat(Init(rs)), Last(rs));
    if i < |rs| - 1 {
      PartsWithin(Init(rs), i);
    }
  }

  /** No run is larger than the data. */
  lemma {:induction false} RunsWithin(q: Limits, vs: seq<Bvec>, bounce: bool)
    ensures forall i :: 0 <= i < |Greedy(q, vs, bounce)| ==> Size(Greedy(q, vs, bounce)[i]) <= Size(vs)
  {
    GreedyIsSegmentation(q, vs, bounce);
    forall i | 0 <= i < |Greedy(q, vs, bounce)|
      ensures Size(Greedy(q, vs, bounce)[i]) <= Size(vs)
    {
      PartsWithin(Greedy(q, vs, bounce), i);
    }
  }

  lemma {:induction false} GreedyIsBounded(q: Limits, vs: seq<Bvec>, front: nat, back: nat)
    requires vs != []
    requires Size(Greedy(q, vs, true)[0]) <= front && Size(Last(Greedy(q, vs, true))) <= back
    ensures Bounded(q, vs, |Greedy(q, vs, true)|, front, back)
  {
    GreedyIsSegmentation(q, vs, true);
    assert Within(q, vs, Greedy(q, vs, true), |Greedy(q, vs, true)|, front, back);
  }

  lemma {:induction false} BoundedWeakens(q: Limits, vs: seq<Bvec>, n: nat, front: nat, back: nat,
                                          front': nat, back': nat)
    requires Bounded(q, vs, n, front, back) && front <= front' && back <= back'
    ensures Bounded(q, vs, n, front', back')
  {
    var rs :| Within(q, vs, rs, n, front, back);
    assert Within(q, vs, rs, n, front', back');
  }

  /** In a single run both sizes bound all the data. */
  lemma {:induction false} BoundedAlone(q: Limits, vs: seq<Bvec>, n: nat, front: nat, back: nat)
    requires Bounded(q, vs, n, front, back)
    ensures n == 1 ==> Size(vs) <= front && Size(vs) <= back && Bounded(q, vs, n, Size(vs), Size(vs))
  {
    var rs :| Within(q, vs, rs, n, front, back);
    if n == 1 {
      assert rs == [] + [rs[0]];
      ConcatSnoc([], rs[0]);
      assert vs == rs[0];
      assert Within(q, vs, rs, n, Size(vs), Size(vs));
    }
  }

  /** Data put end to end without joining: the counts add up. */
  lemma {:induction false} BoundedApart(q: Limits, vs: seq<Bvec>, n: nat, front: nat, back: nat,
                     ws: seq<Bvec>, m: nat, front': nat, back': nat)
    requires Bounded(q, vs, n, front, back) && Bounded(q, ws, m, front', back')
    ensures Bounded(q, vs + ws, n + m, front, back')
  {
    var rs :| Within(q, vs, rs, n, front, back);
    var ts :| Within(q, ws, ts, m, front', back');
    ConcatAppend(rs, ts);
    assert Within(q, vs + ws, rs + ts, n + m, front, back');
  }

  /** Two runs that join at their ends and are small enough together make one run. */
  lemma {:induction false} RunsJoin(q: Limits, r: seq<Bvec>, t: seq<Bvec>)
    requires RunOk(q, r) && RunOk(q, t) && q.cluster
    requires Size(r) + Size(t) <= q.maxSegmentSize && q.joins(Last(r), t[0])
    ensures RunOk(q, r + t) && Size(r + t) == Size(r) + Size(t)
  {
    SizeAppend(r, t);
    forall i | 0 < i < |r + t|
      ensures q.joins((r + t)[i - 1], (r + t)[i])
    {
      assert i < |r| ==> q.joins(r[i - 1], r[i]);
      assert i > |r| ==> q.joins(t[i - |r| - 1], t[i - |r|]);
    }
  }

  lemma {:induction false} ConcatCons(ts: seq<seq<Bvec>>)
    requires ts != []
    ensures Concat(ts) == ts[0] + Concat(ts[1..])
  {
    assert ts == ([] + [ts[0]]) + ts[1..];
    ConcatAppend([] + [ts[0]], ts[1..]);
    ConcatSnoc([], ts[0]);
  }

  lemma {:induction false} Regroup<T>(a: seq<T>, b: seq<T>, c: seq<T>, d: seq<T>)
    ensures (a + (b + c)) + d == (a + b) + (c + d)
  {
  }

  lemma {:induction false} ConcatJoined(rs: seq<seq<Bvec>>, ts: seq<seq<Bvec>>)
    requires rs != [] && ts != []
    ensures Concat(Init(rs) + [Last(rs) + ts[0]] + ts[1..]) == Concat(rs) + Concat(ts)
  {
    ConcatAppend(Init(rs) + [Last(rs) + ts[0]], ts[1..]);
    ConcatSnoc(Init(rs), Last(rs) + ts[0]);
    ConcatCons(ts);
    Regroup(Concat(Init(rs)), Last(rs), ts[0], Concat(ts[1..]));
  }

  /** Data put end to end whose inner ends join: one run fewer. */
  lemma {:induction false} BoundedJoined(q: Limits, vs: seq<Bvec>, n: nat, front: nat, back: nat,
                      ws: seq<Bvec>, m: nat, front': nat, back': nat)
    requires Bounded(q, vs, n, front, back) && Bounded(q, ws, m, front', back')
    requires vs != [] && ws != [] && q.cluster && back + front' <= q.maxSegmentSize && q.joins(Last(vs), ws[0])
    ensures Bounded(q, vs + ws, n + m - 1, if n == 1 then back + front' else front,
                    if m == 1 then back + front' else back')
  {
    var rs :| Within(q, vs, rs, n, front, back);
    var ts :| Within(q, ws, ts, m, front', back');
    EndsOfSegmentation(q, vs, rs);
    EndsOfSegmentation(q, ws, ts);
    RunsJoin(q, Last(rs), ts[0]);
    ConcatJoined(rs, ts);
    var us := Init(rs) + [Last(rs) + ts[0]] + ts[1..];
    assert forall r :: r in us ==> r in rs || r in ts || r == Last(rs) + ts[0];
    assert Within(q, vs + ws, us, n + m - 1, if n == 1 then back + front' else front,
                  if m == 1 then back + front' else back');
  }

  /** The runs of a segmentation at its two ends begin and end the data. */
  lemma {:induction false} EndsOfSegmentation(q: Limits, vs: seq<Bvec>, rs: seq<seq<Bvec>>)
    requires Segmentation(q, vs, rs) && rs != []
    ensures vs != [] && Last(rs) in rs && rs[0] in rs && RunOk(q, Last(rs)) && RunOk(q, rs[0])
    ensures Last(Last(rs)) == Last(vs) && rs[0][0] == vs[0]
  {
    assert Last(rs) in rs && rs[0] in rs;
    ConcatCons(rs);
  }

  // ---------- The loops ----------

  function Max(a: nat, b: nat): nat {
    if a < b then b else a
  }

  // A scatterlist entry holds the start of its run and the size of the whole run.
  function Entry(run: seq<Bvec>): Bvec
    requires run != []
  {
    run[0].(len := Size(run))
  }

  /** The scatterlist of a list of runs. */
  function Entries(rs: seq<seq<Bvec>>): (es: seq<Bvec>)
    requires NoEmpty(rs)
    ensures |es| == |rs|
  {
    if rs == [] then [] else Entries(Init(rs)) + [Entry(Last(rs))]
  }

  predicate NoEmpty(rs: seq<seq<Bvec>>) {
    forall i :: 0 <= i < |rs| ==> rs[i] != []
  }

  lemma {:induction false} NoEmptyRun(q: Limits, vs: seq<Bvec>, bounce: bool)
    ensures NoEmpty(Greedy(q, vs, bounce))
    ensures vs == [] <==> Greedy(q, vs, bounce) == []
    ensures vs != [] ==> Last(Last(Greedy(q, vs, bounce))) == Last(vs)
  {
    GreedyIsSegmentation(q, vs, bounce);
    var g := Greedy(q, vs, bounce);
    forall i | 0 <= i < |g|
      ensures g[i] != []
    {
      assert g[i] in g;
    }
    if vs != [] {
      EndsOfSegmentation(q, vs, g);
    }
  }

  /** The scatterlist that blk_rq_map_sg makes of the data. */
  function Mapped(q: Limits, vs: seq<Bvec>): (sg: seq<Bvec>)
    ensures |sg| == |Greedy(q, vs, false)|
    ensures vs == [] <==> sg == []
  {
    NoEmptyRun(q, vs, false);
    Entries(Greedy(q, vs, false))
  }

  lemma {:induction false} EntryAt(rs: seq<seq<Bvec>>, i: nat)
    requires NoEmpty(rs) && i < |rs|
    ensures Entries(rs)[i] == Entry(rs[i])
    decreases |rs|
  {
    if i < |rs| - 1 {
      EntryAt(Init(rs), i);
    }
  }

  /** The entries cover the data in order: each starts where a run of joining vectors does and has its length. */
  lemma {:induction false} MappedCovers(q: Limits, vs: seq<Bvec>) returns (rs: seq<seq<Bvec>>)
    ensures Segmentation(q, vs, rs) && |Mapped(q, vs)| == |rs|
    ensures forall i :: 0 <= i < |rs| ==> rs[i] != [] && Mapped(q, vs)[i] == rs[i][0].(len := Size(rs[i]))
  {
    rs := Greedy(q, vs, false);
    GreedyIsSegmentation(q, vs, false);
    NoEmptyRun(q, vs, false);
    forall i | 0 <= i < |rs|
      ensures Mapped(q, vs)[i] == rs[i][0].(len := Size(rs[i]))
    {
      EntryAt(rs, i);
    }
  }

  /** One turn of the loop of blk_rq_map_sg, with lengths of 32 bits; prev is the vector before v. */
  function AddVector(q: Limits, sg: seq<Bvec>, prev: Bvec, v: Bvec): seq<Bvec> {
    if sg != [] && q.cluster && Add32(Last(sg).len, v.len) <= q.maxSegmentSize && q.joins(prev, v)
    then Init(sg) + [Last(sg).(len := Add32(Last(sg).len, v.len))]
    else sg + [v]
  }

  lemma {:induction false} MapStep(q: Limits, vs: seq<Bvec>, prev: Bvec, v: Bvec)
    requires (vs != [] ==> prev == Last(vs)) && Size(vs) + v.len < TWO_32
    ensures Mapped(q, vs + [v]) == AddVector(q, Mapped(q, vs), prev, v)
  {
    var g := Greedy(q, vs, false);
    NoEmptyRun(q, vs, false);
    RunsWithin(q, vs, false);
    assert Init(vs + [v]) == vs;
    if Opens(q, g, v, false) {
      assert Init(g + [[v]]) == g;
      assert Size([v]) == Size([]) + v.len;
    } else {
      var run := Last(g) + [v];
      assert Init(Init(g) + [run]) == Init(g);
      SizeSnoc(Last(g), v);
    }
  }

  lemma {:induction false} StepWithin(done: seq<Bvec>, bio: seq<Bvec>, j: nat)
    requires j < |bio|
    ensures Size(done + bio[..j]) + bio[j].len <= Size(done) + Size(bio)
  {
    SizeAppend(done, bio[..j]);
    SizeSnoc(bio[..j], bio[j]);
    SizeAppend(bio[..j] + [bio[j]], bio[j + 1..]);
    assert bio == bio[..j] + [bio[j]] + bio[j + 1..];
  }

  lemma {:induction false} PrefixWithin(bios: seq<seq<Bvec>>, i: nat)
    requires i < |bios|
    ensures Size(Concat(bios[..i])) + Size(bios[i]) <= Size(Concat(bios))
  {
    ConcatSnoc(bios[..i], bios[i]);
    SizeAppend(Concat(bios[..i]), bios[i]);
    ConcatAppend(bios[..i] + [bios[i]], bios[i + 1..]);
    SizeAppend(Concat(bios[..i] + [bios[i]]), Concat(bios[i + 1..]));
    assert bios == bios[..i] + [bios[i]] + bios[i + 1..];
  }

  lemma {:induction false} Whole(done: seq<Bvec>, bio: seq<Bvec>, now: seq<Bvec>)
    requires now == done + bio[..|bio|]
    ensures now == done + bio
  {
    assert bio[..|bio|] == bio;
  }

  /** The body of the loop of blk_rq_map_sg. */
  method MapVector(q: Limits, sg: seq<Bvec>, prev: Bvec, bio: seq<Bvec>, j: nat, ghost done: seq<Bvec>,
                   ghost now: seq<Bvec>)
    returns (sg': seq<Bvec>, prev': Bvec, ghost now': seq<Bvec>)
    requires j < |bio| && Size(done) + Size(bio) < TWO_32 && now == done + bio[..j]
    requires sg == Mapped(q, now) && (now != [] ==> prev == Last(now))
    ensures now' == done + bio[..j + 1] && now' != [] && sg' == Mapped(q, now') && prev' == Last(now')
  {
    StepWithin(done, bio, j);
    MapStep(q, now, prev, bio[j]);
    sg' := AddVector(q, sg, prev, bio[j]);
    prev' := bio[j];
    now' := now + [bio[j]];
  }

  /** The inner loop of blk_rq_map_sg, over the vectors of one bio. */
  method MapBio(q: Limits, sg: seq<Bvec>, prev: Bvec, bio: seq<Bvec>, ghost done: seq<Bvec>)
    returns (sg': seq<Bvec>, prev': Bvec)
    requires sg == Mapped(q, done) && (done != [] ==> prev == Last(done)) && Size(done) + Size(bio) < TWO_32
    ensures sg' == Mapped(q, done + bio) && (done + bio != [] ==> prev' == Last(done + bio))
  {
    sg', prev' := sg, prev;
    ghost var now := done;
    assert now == done + bio[..0] && (now != [] ==> prev' == Last(now));
    for j := 0 to |bio|
      invariant now == done + bio[..j]
      invariant sg' == Mapped(q, now)
      invariant now != [] ==> prev' == Last(now)
    {
      sg', prev', now := MapVector(q, sg', prev', bio, j, done, now);
    }
    Whole(done, bio, now);
  }

  /** blk_rq_map_sg, on the vectors of the bios of a request. */
  method MapSg(q: Limits, bios: seq<seq<Bvec>>) returns (sg: seq<Bvec>)
    requires Size(Concat(bios)) < TWO_32
    ensures sg == Mapped(q, Concat(bios))
  {
    sg := [];
    var prev := Bvec(0, 0, 0);
    for i := 0 to |bios|
      invariant sg == Mapped(q, Concat(bios[..i]))
      invariant Concat(bios[..i]) != [] ==> prev == Last(Concat(bios[..i]))
    {
      PrefixWithin(bios, i);
      sg, prev := MapBio(q, sg, prev, bios[i], Concat(bios[..i]));
      assert bios[..i + 1] == bios[..i] + [bios[i]];
      ConcatSnoc(bios[..i], bios[i]);
    }
    assert bios[..|bios|] == bios;
  }

  // What the loop of __blk_recalc_rq_segments carries: the count, the size of the open run,
  // whether its first page is high, and the first bio's cached size.
  datatype Scan = Scan(count: nat, size: nat, highPrev: bool, front: nat)

  /** The state of the loop after the vectors vs, with the cached size front to begin with. */
  ghost predicate Scanned(q: Limits, vs: seq<Bvec>, front: nat, s: Scan) {
    NoEmptyRun(q, vs, true);
    var g := Greedy(q, vs, true);
    && s.count == |g|
    && (vs == [] ==> s.highPrev && s.size == 0)
    && (vs != [] ==> s.size == Size(Last(g)) && s.highPrev == q.high(Last(g)[0]))
    && s.front == if |g| > 1 then Max(front, Size(g[0])) else front
  }

  /** One turn of the loop of __blk_recalc_rq_segments, with sizes of 32 bits. */
  function Advance(q: Limits, s: Scan, prev: Bvec, v: Bvec): Scan {
    var size := Add32(s.size, v.len);
    if q.high(v) || s.highPrev || !q.cluster || size > q.maxSegmentSize || !q.joins(prev, v) then
      Scan(s.count + 1, v.len, q.high(v), if s.count == 1 && s.size > s.front then s.size else s.front)
    else s.(size := size)
  }

  lemma {:induction false} AdvanceScans(q: Limits, vs: seq<Bvec>, front: nat, s: Scan, prev: Bvec, v: Bvec)
    requires Scanned(q, vs, front, s) && (vs != [] ==> prev == Last(vs)) && Size(vs) + v.len < TWO_32
    ensures Scanned(q, vs + [v], front, Advance(q, s, prev, v))
  {
    var g := Greedy(q, vs, true);
    RunsWithin(q, vs, true);
    NoEmptyRun(q, vs, true);
    assert Init(vs + [v]) == vs;
    assert Opens(q, g, v, true) <==> Advance(q, s, prev, v).count == s.count + 1;
    if Opens(q, g, v, true) {
      ScanOpens(q, vs, front, s, prev, v, g);
    } else {
      ScanGrows(q, vs, front, s, prev, v, g);
    }
  }

  lemma {:induction false} ScanOpens(q: Limits, vs: seq<Bvec>, front: nat, s: Scan, prev: Bvec, v: Bvec,
                                     g: seq<seq<Bvec>>)
    requires Scanned(q, vs, front, s) && g == Greedy(q, vs, true) && NoEmpty(g)
    requires Greedy(q, vs + [v], true) == g + [[v]] && Advance(q, s, prev, v).count == s.count + 1
    ensures Scanned(q, vs + [v], front, Advance(q, s, prev, v))
  {
    NoEmptyRun(q, vs + [v], true);
    assert Size([v]) == Size([]) + v.len;
  }

  lemma {:induction false} ScanGrows(q: Limits, vs: seq<Bvec>, front: nat, s: Scan, prev: Bvec, v: Bvec,
                                     g: seq<seq<Bvec>>)
    requires Scanned(q, vs, front, s) && g == Greedy(q, vs, true) && NoEmpty(g) && g != []
    requires Greedy(q, vs + [v], true) == Init(g) + [Last(g) + [v]]
    requires Advance(q, s, prev, v) == s.(size := Size(Last(g)) + v.len)
    ensures Scanned(q, vs + [v], front, Advance(q, s, prev, v))
  {
    NoEmptyRun(q, vs + [v], true);
    SizeSnoc(Last(g), v);
  }

  /** The body of the loop of __blk_recalc_rq_segments. */
  method ScanVector(q: Limits, s: Scan, prev: Bvec, bio: seq<Bvec>, j: nat, ghost done: seq<Bvec>, ghost front: nat,
                    ghost now: seq<Bvec>)
    returns (s': Scan, prev': Bvec, ghost now': seq<Bvec>)
    requires j < |bio| && Size(done) + Size(bio) < TWO_32 && now == done + bio[..j]
    requires Scanned(q, now, front, s) && (now != [] ==> prev == Last(now))
    ensures now' == done + bio[..j + 1] && now' != [] && Scanned(q, now', front, s') && prev' == Last(now')
  {
    StepWithin(done, bio, j);
    AdvanceScans(q, now, front, s, prev, bio[j]);
    s' := Advance(q, s, prev, bio[j]);
    prev' := bio[j];
    now' := now + [bio[j]];
  }

  /** The inner loop of __blk_recalc_rq_segments. */
  method ScanBio(q: Limits, s: Scan, prev: Bvec, bio: seq<Bvec>, ghost done: seq<Bvec>, ghost front: nat)
    returns (s': Scan, prev': Bvec)
    requires Scanned(q, done, front, s) && (done != [] ==> prev == Last(done)) && Size(done) + Size(bio) < TWO_32
    ensures Scanned(q, done + bio, front, s') && (done + bio != [] ==> prev' == Last(done + bio))
  {
    s', prev' := s, prev;
    ghost var now := done;
    for j := 0 to |bio|
      invariant now == done + bio[..j]
      invariant Scanned(q, now, front, s')
      invariant now != [] ==> prev' == Last(now)
    {
      s', prev', now := ScanVector(q, s', prev', bio, j, done, front, now);
    }
    Whole(done, bio, now);
  }

  /** __blk_recalc_rq_segments: the count, and the cached sizes of the first and the last bio. */
  method Recalc(q: Limits, bios: seq<seq<Bvec>>, front: nat, back: nat) returns (n: nat, front': nat, back': nat)
    requires Size(Concat(bios)) < TWO_32
    ensures n == |Greedy(q, Concat(bios), true)|
    ensures Concat(bios) == [] ==> front' == front && back' == back
    ensures Concat(bios) != [] ==>
              && front' == Max(front, Size(Greedy(q, Concat(bios), true)[0]))
              && back' == Max(back, Size(Last(Greedy(q, Concat(bios), true))))
  {
    var s := Scan(0, 0, true, front);
    var prev := Bvec(0, 0, 0);
    for i := 0 to |bios|
      invariant Scanned(q, Concat(bios[..i]), front, s)
      invariant Concat(bios[..i]) != [] ==> prev == Last(Concat(bios[..i]))
    {
      PrefixWithin(bios, i);
      s, prev := ScanBio(q, s, prev, bios[i], Concat(bios[..i]), front);
      assert bios[..i + 1] == bios[..i] + [bios[i]];
      ConcatSnoc(bios[..i], bios[i]);
    }
    assert bios[..|bios|] == bios;
    front' := if s.count == 1 && s.size > s.front then s.size else s.front;
    back' := if s.size > back then s.size else back;
    n := s.count;
  }
}
