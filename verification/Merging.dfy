/**
 Bios are merged into queued requests and requests into each other, with their lengths, sector
 positions, segment counts and cached segment sizes kept up to date step by step.
 */
module Merging {
  import opened Segments

  const TWO_16: nat := 0x1_0000
  const TWO_64: nat := 0x1_0000_0000_0000_0000

  // A bio that carries data.  phys, segFront and segBack are the cached results of counting its
  // segments; segValid is BIO_SEG_VALID.
  datatype Bio = Bio(id: nat, sector: nat, size: nat, vecs: seq<Bvec>, write: bool,
                     segFront: nat, segBack: nat, phys: nat, segValid: bool)

  // A request.  biotail points at the bio at position tail of the list; nomerge is any of the
  // flags for which rq_mergeable is false.
  datatype Request = Request(bios: seq<Bio>, tail: nat, sector: nat, dataLen: nat, nr: nat,
                             write: bool, nomerge: bool, special: bool)
  {
    function Sectors(): nat {
      dataLen / 512
    }

    /** The pointers bio and biotail lead to bios of the list. */
    predicate Linked() {
      tail < |bios|
    }

    function Biotail(): Bio
      requires Linked()
    {
      bios[tail]
    }
  }

  // ---------- Lists of bios ----------

  function Bytes(bios: seq<Bio>): nat {
    if bios == [] then 0 else bios[0].size + Bytes(bios[1..])
  }

  /** The bios follow each other on the disk from sector s on. */
  predicate Contiguous(bios: seq<Bio>, s: nat) {
    bios == [] || (bios[0].sector == s && Contiguous(bios[1..], s + bios[0].size / 512))
  }

  function VecLists(bios: seq<Bio>): seq<seq<Bvec>> {
    seq(|bios|, i requires 0 <= i < |bios| => bios[i].vecs)
  }

  /** All the data of a list of bios. */
  function Data(bios: seq<Bio>): seq<Bvec> {
    Concat(VecLists(bios))
  }

  function Ids(bios: seq<Bio>): multiset<nat> {
    if bios == [] then multiset{} else multiset{bios[0].id} + Ids(bios[1..])
  }

  // ---------- Counting the segments of a bio ----------

  /** blk_recount_segments */
  function Recounted(q: Limits, b: Bio): (r: Bio)
    requires b.vecs != []
    ensures r.vecs == b.vecs
  {
    NoEmptyRun(q, b.vecs, true);
    var g := Greedy(q, b.vecs, true);
    b.(phys := |g|, segFront := Max(b.segFront, Size(g[0])), segBack := Max(b.segBack, Size(Last(g))),
       segValid := true)
  }

  /** The recount that is done only for a bio not counted yet. */
  function Counted(q: Limits, b: Bio): (r: Bio)
    requires b.vecs != []
    ensures r.vecs == b.vecs
  {
    if b.segValid then b else Recounted(q, b)
  }

  // ---------- Merging a bio ----------

  datatype Merge = NoMerge | BackMerge | FrontMerge

  /** elv_try_merge, with sector numbers of 64 bits. */
  function TryMerge(rq: Request, b: Bio): Merge {
    if rq.nomerge || rq.write != b.write || rq.special then NoMerge
    else if (rq.sector + rq.Sectors()) % TWO_64 == b.sector then BackMerge
    else if (rq.sector - b.size / 512) % TWO_64 == b.sector then FrontMerge
    else NoMerge
  }

  /** The limit as ll_back_merge_fn and ll_front_merge_fn hold it, in an unsigned short. */
  function ShortLimit(q: Limits): nat {
    q.maxSectors % TWO_16
  }

  /** ll_back_merge_fn and ll_front_merge_fn; at is the position of the bio they recount in the request. */
  function MergeLimits(q: Limits, rq: Request, b: Bio, at: nat): (r: (Request, Bio, bool))
    requires at < |rq.bios| && rq.bios[at].vecs != [] && b.vecs != []
  {
    if rq.Sectors() + b.size / 512 > ShortLimit(q) then (rq.(nomerge := true), b, false)
    else
      var rq1 := rq.(bios := rq.bios[at := Counted(q, rq.bios[at])]);
      var b1 := Counted(q, b);
      if rq1.nr + b1.phys > q.maxSegments then (rq1.(nomerge := true), b1, false)
      else (rq1.(nr := rq1.nr + b1.phys), b1, true)
  }

  function LinkBack(rq: Request, b: Bio): Request {
    rq.(bios := rq.bios + [b], tail := |rq.bios|, dataLen := Add32(rq.dataLen, b.size))
  }

  function LinkFront(rq: Request, b: Bio): Request {
    rq.(bios := [b] + rq.bios, tail := rq.tail + 1, sector := b.sector, dataLen := Add32(rq.dataLen, b.size))
  }

  // ---------- Merging two requests ----------

  /** blk_phys_contig_segment, for bios with data; the sizes are added in 32 bits. */
  predicate Adjoins(q: Limits, b: Bio, next: Bio)
    requires b.vecs != [] && next.vecs != []
  {
    && q.cluster && Add32(b.segBack, next.segFront) <= q.maxSegmentSize
    && q.joins(Last(b.vecs), next.vecs[0])
  }

  function WithFront(rq: Request, size: nat): Request
    requires rq.Linked()
  {
    rq.(bios := rq.bios[0 := rq.bios[0].(segFront := size)])
  }

  function WithBack(rq: Request, size: nat): Request
    requires rq.Linked()
  {
    rq.(bios := rq.bios[rq.tail := rq.bios[rq.tail].(segBack := size)])
  }

  /** A bio with data, no more than its size can say. */
  predicate Carries(b: Bio) {
    b.vecs != [] && Size(b.vecs) < TWO_32
  }

  /** The bios whose vectors ll_merge_requests_fn looks at have some, and are counted. */
  predicate HasData(rq: Request) {
    rq.Linked() && rq.nr > 0 && Carries(rq.bios[0]) && Carries(rq.Biotail())
  }

  /** The cached sizes at the seam. */
  function SeamSum(a: Request, b: Request): nat
    requires HasData(a) && HasData(b)
  {
    a.Biotail().segBack + b.bios[0].segFront
  }

  /** The size ll_merge_requests_fn takes for a run that goes over the seam, in 32 bits. */
  function SeamSize(a: Request, b: Request): nat
    requires HasData(a) && HasData(b)
  {
    Add32(a.Biotail().segBack, b.bios[0].segFront)
  }

  /** What ll_merge_requests_fn does to the first request's cached size. */
  function SeamFront(q: Limits, a: Request, b: Request): Request
    requires HasData(a) && HasData(b)
  {
    if Adjoins(q, a.Biotail(), b.bios[0]) && a.nr == 1 then WithFront(a, SeamSize(a, b)) else a
  }

  /** What ll_merge_requests_fn does to the second request's cached size. */
  function SeamBack(q: Limits, a: Request, b: Request): Request
    requires HasData(a) && HasData(b)
  {
    if Adjoins(q, a.Biotail(), b.bios[0]) && b.nr == 1 then WithBack(b, SeamSize(a, b)) else b
  }

  /** The segments of both, one fewer if a run goes over the seam. */
  function TotalCount(q: Limits, a: Request, b: Request): nat
    requires HasData(a) && HasData(b)
  {
    a.nr + b.nr - (if Adjoins(q, a.Biotail(), b.bios[0]) then 1 else 0)
  }

  /** ll_merge_requests_fn: both requests may have cached sizes changed even when it refuses. */
  function MergeCounts(q: Limits, a: Request, b: Request): (r: (Request, Request, bool))
    requires HasData(a) && HasData(b)
  {
    if a.special || b.special || a.Sectors() + b.Sectors() > q.maxSectors then (a, b, false)
    else if TotalCount(q, a, b) > q.maxSegments then (SeamFront(q, a, b), SeamBack(q, a, b), false)
    else (SeamFront(q, a, b).(nr := TotalCount(q, a, b)), SeamBack(q, a, b), true)
  }

  /** The bios of b behind those of a. */
  function LinkRequests(a: Request, b: Request): Request {
    a.(bios := a.bios + b.bios, tail := |a.bios| + b.tail, dataLen := Add32(a.dataLen, b.dataLen))
  }

  /** attempt_merge: on success the second request is gone and its bios belong to the first. */
  function AttemptMerge(q: Limits, a: Request, b: Request): (r: (Request, Request, bool))
    requires HasData(a) && HasData(b)
  {
    if a.nomerge || b.nomerge || (a.sector + a.Sectors()) % TWO_64 != b.sector || a.write != b.write || b.special
    then (a, b, false)
    else
      var (a1, b1, ok) := MergeCounts(q, a, b);
      if ok then (LinkRequests(a1, b1), b1, true) else (a1, b1, false)
  }

  // ---------- What holds of every request ----------

  /** A bio of whole sectors whose size is that of its data and which ends on the device. */
  predicate BioOk(b: Bio) {
    && b.vecs != [] && b.size == Size(b.vecs) && 0 < b.size < TWO_32 && b.size % 512 == 0
    && b.sector + b.size / 512 < TWO_64
  }

  /** A bio may come counted, but then under the limits of this queue; a count only sees the bio's own data. */
  ghost predicate CountOk(q: Limits, b: Bio) {
    && b.segFront <= b.size && b.segBack <= b.size
    && (b.segValid ==> Bounded(q, b.vecs, b.phys, b.segFront, b.segBack))
  }

  /** The segment count of the request is that of some segmentation within the cached sizes. */
  ghost predicate SegmentsOk(q: Limits, rq: Request)
    requires rq.Linked()
  {
    Bounded(q, Data(rq.bios), rq.nr, rq.bios[0].segFront, rq.Biotail().segBack)
  }

  /** The bios lie one after the other from the request's sector on, and the length is theirs. */
  predicate ListOk(rq: Request) {
    && rq.bios != [] && rq.tail == |rq.bios| - 1
    && (forall i :: 0 <= i < |rq.bios| ==> BioOk(rq.bios[i]) && rq.bios[i].segValid && rq.bios[i].write == rq.write)
    && Contiguous(rq.bios, rq.sector)
    && rq.dataLen == Bytes(rq.bios) < TWO_32
    && rq.sector + rq.Sectors() < TWO_64
  }

  ghost predicate Sound(q: Limits, rq: Request) {
    && ListOk(rq)
    && SegmentsOk(q, rq)
    && (|rq.bios| > 1 ==> rq.Sectors() <= q.maxSectors && rq.nr <= q.maxSegments)
  }

  /** The cached sizes at the ends of a request are not larger than its data. */
  predicate Capped(rq: Request)
    requires rq.Linked()
  {
    rq.bios[0].segFront <= rq.dataLen && rq.Biotail().segBack <= rq.dataLen
  }

  ghost predicate RequestOk(q: Limits, rq: Request) {
    Sound(q, rq) && Capped(rq)
  }

  /** A request that has just taken a bio. */
  predicate Grown(q: Limits, rq: Request) {
    2 <= rq.nr <= q.maxSegments
  }

  /** A request within the sector limit has a length of 32 bits. */
  predicate Short(q: Limits) {
    q.maxSectors < TWO_32 / 512
  }

  /**
   No length and no cached size outgrows its 32 bits.  Requests are merged only after one of them
   took a bio, so the limits may instead rule out that any bio is taken.
   */
  predicate LengthsFit(q: Limits) {
    Short(q) || ShortLimit(q) < 2 || q.maxSegments < 2
  }

  // ---------- Lemmas about lists ----------

  lemma {:induction false} BytesAppend(a: seq<Bio>, b: seq<Bio>)
    ensures Bytes(a + b) == Bytes(a) + Bytes(b)
  {
    if a == [] {
      assert a + b == b;
    } else {
      assert (a + b)[1..] == a[1..] + b;
      BytesAppend(a[1..], b);
    }
  }

  lemma {:induction false} IdsAppend(a: seq<Bio>, b: seq<Bio>)
    ensures Ids(a + b) == Ids(a) + Ids(b)
  {
    if a == [] {
      assert a + b == b;
    } else {
      assert (a + b)[1..] == a[1..] + b;
      IdsAppend(a[1..], b);
    }
  }

  lemma {:induction false} WholeSectors(a: seq<Bio>)
    requires forall i :: 0 <= i < |a| ==> BioOk(a[i])
    ensures Bytes(a) % 512 == 0
  {
    if a != [] {
      WholeSectors(a[1..]);
    }
  }

  lemma {:induction false} ContiguousAppend(a: seq<Bio>, b: seq<Bio>, s: nat)
    requires Contiguous(a, s) && Contiguous(b, s + Bytes(a) / 512)
    requires forall i :: 0 <= i < |a| ==> BioOk(a[i])
    ensures Contiguous(a + b, s)
  {
    if a == [] {
      assert a + b == b;
    } else {
      assert (a + b)[1..] == a[1..] + b;
      WholeSectors(a[1..]);
      ContiguousAppend(a[1..], b, s + a[0].size / 512);
    }
  }

  lemma {:induction false} DataAppend(a: seq<Bio>, b: seq<Bio>)
    ensures Data(a + b) == Data(a) + Data(b)
  {
    assert VecLists(a + b) == VecLists(a) + VecLists(b);
    ConcatAppend(VecLists(a), VecLists(b));
  }

  lemma {:induction false} DataOne(b: Bio)
    ensures Data([b]) == b.vecs
  {
    assert VecLists([b]) == [] + [b.vecs];
    ConcatSnoc([], b.vecs);
  }

  /** Cached sizes are no part of what a list of bios carries. */
  lemma {:induction false} SameCargo(a: seq<Bio>, b: seq<Bio>, s: nat)
    requires |a| == |b|
    requires forall i :: 0 <= i < |a| ==>
               a[i].id == b[i].id && a[i].sector == b[i].sector && a[i].size == b[i].size && a[i].vecs == b[i].vecs
    ensures Bytes(a) == Bytes(b) && Ids(a) == Ids(b) && Data(a) == Data(b)
    ensures Contiguous(a, s) <==> Contiguous(b, s)
  {
    assert VecLists(a) == VecLists(b);
    if a != [] {
      SameCargo(a[1..], b[1..], s + a[0].size / 512);
    }
  }

  /** The data of a request begins with its first bio's and ends with its last bio's. */
  lemma {:induction false} DataEnds(bios: seq<Bio>)
    requires bios != [] && bios[0].vecs != [] && Last(bios).vecs != []
    ensures Data(bios) != [] && Data(bios)[0] == bios[0].vecs[0] && Last(Data(bios)) == Last(Last(bios).vecs)
  {
    assert bios == [bios[0]] + bios[1..] && bios == Init(bios) + [Last(bios)];
    DataAppend([bios[0]], bios[1..]);
    DataAppend(Init(bios), [Last(bios)]);
    DataOne(bios[0]);
    DataOne(Last(bios));
  }

  lemma {:induction false} DataSize(bios: seq<Bio>)
    requires forall i :: 0 <= i < |bios| ==> BioOk(bios[i])
    ensures Size(Data(bios)) == Bytes(bios)
  {
    if bios != [] {
      DataSize(bios[1..]);
      assert bios == [bios[0]] + bios[1..];
      DataAppend([bios[0]], bios[1..]);
      DataOne(bios[0]);
      SizeAppend(bios[0].vecs, Data(bios[1..]));
    }
  }

  // ---------- A bio and a request by themselves ----------

  lemma {:induction false} CountedOk(q: Limits, b: Bio)
    requires BioOk(b) && CountOk(q, b)
    ensures var c := Counted(q, b);
            && c.segValid && CountOk(q, c)
            && c == b.(segFront := c.segFront, segBack := c.segBack, phys := c.phys, segValid := true)
  {
    if !b.segValid {
      NoEmptyRun(q, b.vecs, true);
      var c := Recounted(q, b);
      GreedyIsBounded(q, b.vecs, c.segFront, c.segBack);
      RunsWithin(q, b.vecs, true);
    }
  }

  /** init_request_from_bio and blk_rq_bio_prep */
  function NewRequest(q: Limits, b: Bio, barrier: bool): Request
    requires b.vecs != []
  {
    var c := Counted(q, b);
    Request([c], 0, b.sector, b.size, c.phys, b.write, barrier, false)
  }

  lemma {:induction false} NewRequestOk(q: Limits, b: Bio, barrier: bool)
    requires BioOk(b) && CountOk(q, b)
    ensures RequestOk(q, NewRequest(q, b, barrier)) && Ids(NewRequest(q, b, barrier).bios) == multiset{b.id}
  {
    CountedOk(q, b);
    var c := Counted(q, b);
    DataOne(c);
    assert [c][1..] == [];
    assert Bytes([c]) == c.size + Bytes([]);
    assert Contiguous([c], b.sector);
  }

  // ---------- Merging a bio keeps a request in order ----------

  /** Sector arithmetic that does not leave the device does not wrap. */
  lemma {:induction false} TryMergePlaces(rq: Request, b: Bio)
    requires rq.sector + rq.Sectors() < TWO_64 && b.sector + b.size / 512 < TWO_64
    ensures TryMerge(rq, b) == BackMerge ==> rq.sector + rq.Sectors() == b.sector
    ensures TryMerge(rq, b) == FrontMerge ==> b.sector + b.size / 512 == rq.sector
  {
  }

  lemma {:induction false} MergeLimitsOk(q: Limits, rq: Request, b: Bio, at: nat)
    requires RequestOk(q, rq) && BioOk(b) && CountOk(q, b) && at < |rq.bios|
    ensures var (rq', b', ok) := MergeLimits(q, rq, b, at);
            && rq' == (if ok then rq.(nr := rq.nr + b'.phys) else rq.(nomerge := true))
            && BioOk(b') && CountOk(q, b') && b'.id == b.id && b'.size == b.size && b'.sector == b.sector
            && b'.write == b.write && b'.vecs == b.vecs
            && (ok ==> b'.segValid && rq'.nr <= q.maxSegments && rq.Sectors() + b.size / 512 <= ShortLimit(q))
  {
    CountedOk(q, b);
    assert rq.bios[at := rq.bios[at]] == rq.bios;
  }

  /** A request that takes a bio has at least two segments and two sectors. */
  lemma {:induction false} TakenMeansGrown(q: Limits, rq: Request, b: Bio, at: nat)
    requires RequestOk(q, rq) && BioOk(b) && CountOk(q, b) && at < |rq.bios| && MergeLimits(q, rq, b, at).2
    ensures Grown(q, MergeLimits(q, rq, b, at).0) && ShortLimit(q) >= 2
  {
    CountedOk(q, b);
    WholeSectors(rq.bios);
    assert BioOk(rq.bios[0]) && Bytes(rq.bios) >= rq.bios[0].size;
  }

  lemma {:induction false} ShortSum(q: Limits, x: nat, y: nat)
    requires x % 512 == 0 && y % 512 == 0 && x / 512 + y / 512 <= ShortLimit(q)
    ensures x + y < TWO_32 && (x + y) / 512 == x / 512 + y / 512 <= q.maxSectors
  {
  }

  lemma {:induction false} SameMerge(rq: Request, b: Bio, b': Bio)
    requires b'.sector == b.sector && b'.size == b.size && b'.write == b.write
    ensures TryMerge(rq, b') == TryMerge(rq, b)
  {
  }

  lemma {:induction false} BackMergeOk(q: Limits, rq: Request, b: Bio)
    requires RequestOk(q, rq) && BioOk(b) && CountOk(q, b) && TryMerge(rq, b) == BackMerge
    ensures var (rq', b', ok) := MergeLimits(q, rq, b, rq.tail);
            && BioOk(b') && CountOk(q, b') && b'.id == b.id
            && (!ok ==> RequestOk(q, rq') && rq'.bios == rq.bios)
            && (ok ==>
                  && RequestOk(q, LinkBack(rq', b'))
                  && Ids(LinkBack(rq', b').bios) == Ids(rq.bios) + multiset{b.id})
  {
    var (rq', b', ok) := MergeLimits(q, rq, b, rq.tail);
    MergeLimitsOk(q, rq, b, rq.tail);
    SameMerge(rq, b, b');
    if ok {
      LinkBackOk(q, rq, b');
    } else {
      NomergeOk(q, rq);
    }
  }

  lemma {:induction false} LinkBackOk(q: Limits, rq: Request, b: Bio)
    requires RequestOk(q, rq) && BioOk(b) && CountOk(q, b) && b.segValid && TryMerge(rq, b) == BackMerge
    requires rq.nr + b.phys <= q.maxSegments && rq.Sectors() + b.size / 512 <= ShortLimit(q)
    ensures var r := LinkBack(rq.(nr := rq.nr + b.phys), b);
            RequestOk(q, r) && Ids(r.bios) == Ids(rq.bios) + multiset{b.id}
  {
    LinkBackList(q, rq, b, rq.nr + b.phys);
    LinkBackSegments(q, rq, b);
  }

  lemma {:induction false} LinkBackList(q: Limits, rq: Request, b: Bio, n: nat)
    requires ListOk(rq) && BioOk(b) && b.segValid && TryMerge(rq, b) == BackMerge
    requires rq.Sectors() + b.size / 512 <= ShortLimit(q)
    ensures var r := LinkBack(rq.(nr := n), b);
            ListOk(r) && r.Sectors() <= q.maxSectors && Ids(r.bios) == Ids(rq.bios) + multiset{b.id}
  {
    TryMergePlaces(rq, b);
    WholeSectors(rq.bios);
    ShortSum(q, rq.dataLen, b.size);
    OneBio(b);
    BytesAppend(rq.bios, [b]);
    IdsAppend(rq.bios, [b]);
    ContiguousAppend(rq.bios, [b], rq.sector);
  }

  lemma {:induction false} OneBio(b: Bio)
    ensures Bytes([b]) == b.size && Contiguous([b], b.sector) && Ids([b]) == multiset{b.id}
  {
    assert [b][1..] == [];
    assert Bytes([b]) == b.size + Bytes([]);
  }

  lemma {:induction false} LinkBackSegments(q: Limits, rq: Request, b: Bio)
    requires ListOk(rq) && SegmentsOk(q, rq) && b.vecs != [] && b.segValid && CountOk(q, b)
    ensures SegmentsOk(q, LinkBack(rq.(nr := rq.nr + b.phys), b))
  {
    DataAppend(rq.bios, [b]);
    DataOne(b);
    BoundedApart(q, Data(rq.bios), rq.nr, rq.bios[0].segFront, rq.Biotail().segBack,
                 b.vecs, b.phys, b.segFront, b.segBack);
  }

  lemma {:induction false} FrontMergeOk(q: Limits, rq: Request, b: Bio)
    requires RequestOk(q, rq) && BioOk(b) && CountOk(q, b) && TryMerge(rq, b) == FrontMerge
    ensures var (rq', b', ok) := MergeLimits(q, rq, b, 0);
            && BioOk(b') && CountOk(q, b') && b'.id == b.id
            && (!ok ==> RequestOk(q, rq') && rq'.bios == rq.bios)
            && (ok ==>
                  && RequestOk(q, LinkFront(rq', b'))
                  && Ids(LinkFront(rq', b').bios) == Ids(rq.bios) + multiset{b.id})
  {
    var (rq', b', ok) := MergeLimits(q, rq, b, 0);
    MergeLimitsOk(q, rq, b, 0);
    SameMerge(rq, b, b');
    if ok {
      LinkFrontOk(q, rq, b');
    } else {
      NomergeOk(q, rq);
    }
  }

  lemma {:induction false} LinkFrontOk(q: Limits, rq: Request, b: Bio)
    requires RequestOk(q, rq) && BioOk(b) && CountOk(q, b) && b.segValid && TryMerge(rq, b) == FrontMerge
    requires rq.nr + b.phys <= q.maxSegments && rq.Sectors() + b.size / 512 <= ShortLimit(q)
    ensures var r := LinkFront(rq.(nr := rq.nr + b.phys), b);
            RequestOk(q, r) && Ids(r.bios) == Ids(rq.bios) + multiset{b.id}
  {
    LinkFrontList(q, rq, b, rq.nr + b.phys);
    LinkFrontSegments(q, rq, b);
  }

  lemma {:induction false} LinkFrontList(q: Limits, rq: Request, b: Bio, n: nat)
    requires ListOk(rq) && BioOk(b) && b.segValid && TryMerge(rq, b) == FrontMerge
    requires rq.Sectors() + b.size / 512 <= ShortLimit(q)
    ensures var r := LinkFront(rq.(nr := n), b);
            ListOk(r) && r.Sectors() <= q.maxSectors && Ids(r.bios) == Ids(rq.bios) + multiset{b.id}
  {
    TryMergePlaces(rq, b);
    WholeSectors(rq.bios);
    ShortSum(q, rq.dataLen, b.size);
    assert ([b] + rq.bios)[1..] == rq.bios;
  }

  lemma {:induction false} LinkFrontSegments(q: Limits, rq: Request, b: Bio)
    requires ListOk(rq) && SegmentsOk(q, rq) && b.vecs != [] && b.segValid && CountOk(q, b)
    ensures SegmentsOk(q, LinkFront(rq.(nr := rq.nr + b.phys), b))
  {
    DataAppend([b], rq.bios);
    DataOne(b);
    BoundedApart(q, b.vecs, b.phys, b.segFront, b.segBack,
                 Data(rq.bios), rq.nr, rq.bios[0].segFront, rq.Biotail().segBack);
  }

  // ---------- Merging two requests ----------

  /** Setting a cached size of the first bio. */
  lemma {:induction false} WithFrontOk(q: Limits, rq: Request, size: nat)
    requires Sound(q, rq) && rq.nr == 1 && rq.Biotail().segBack <= size
    ensures Sound(q, WithFront(rq, size)) && Ids(WithFront(rq, size).bios) == Ids(rq.bios)
    ensures Data(WithFront(rq, size).bios) == Data(rq.bios)
  {
    var r := WithFront(rq, size);
    SameCargo(r.bios, rq.bios, rq.sector);
    BoundedAlone(q, Data(rq.bios), 1, rq.bios[0].segFront, rq.Biotail().segBack);
    BoundedWeakens(q, Data(rq.bios), 1, Size(Data(rq.bios)), Size(Data(rq.bios)), size, r.Biotail().segBack);
  }

  /** Setting a cached size of the last bio. */
  lemma {:induction false} WithBackOk(q: Limits, rq: Request, size: nat)
    requires Sound(q, rq) && rq.nr == 1 && rq.bios[0].segFront <= size
    ensures Sound(q, WithBack(rq, size)) && Ids(WithBack(rq, size).bios) == Ids(rq.bios)
    ensures Data(WithBack(rq, size).bios) == Data(rq.bios)
  {
    var r := WithBack(rq, size);
    SameCargo(r.bios, rq.bios, rq.sector);
    BoundedAlone(q, Data(rq.bios), 1, rq.bios[0].segFront, rq.Biotail().segBack);
    BoundedWeakens(q, Data(rq.bios), 1, Size(Data(rq.bios)), Size(Data(rq.bios)), r.bios[0].segFront, size);
  }

  /** The sizes at the seam are no more than the data of both requests, so their sum does not wrap. */
  lemma {:induction false} SeamFits(q: Limits, a: Request, b: Request)
    requires RequestOk(q, a) && RequestOk(q, b) && HasData(a) && HasData(b)
    requires Short(q) && a.Sectors() + b.Sectors() <= q.maxSectors
    ensures SeamSum(a, b) <= a.dataLen + b.dataLen < TWO_32 && SeamSize(a, b) == SeamSum(a, b)
  {
    MergedLengthFits(q, a, b);
  }

  /** The cached sizes that ll_merge_requests_fn sets are bounds. */
  lemma {:induction false} SeamFrontOk(q: Limits, a: Request, b: Request)
    requires Sound(q, a) && HasData(a) && HasData(b) && SeamSum(a, b) < TWO_32
    ensures var a1 := SeamFront(q, a, b);
            && Sound(q, a1) && Ids(a1.bios) == Ids(a.bios) && Data(a1.bios) == Data(a.bios)
            && a1 == a.(bios := a1.bios)
  {
    if a.nr == 1 {
      WithFrontOk(q, a, SeamSize(a, b));
    }
  }

  lemma {:induction false} SeamBackOk(q: Limits, a: Request, b: Request)
    requires Sound(q, b) && HasData(a) && HasData(b) && SeamSum(a, b) < TWO_32
    ensures var b1 := SeamBack(q, a, b);
            && Sound(q, b1) && Ids(b1.bios) == Ids(b.bios) && Data(b1.bios) == Data(b.bios)
            && b1 == b.(bios := b1.bios)
  {
    if b.nr == 1 {
      WithBackOk(q, b, SeamSize(a, b));
    }
  }

  lemma {:induction false} SectorsAdd(x: nat, y: nat)
    requires x % 512 == 0 && y % 512 == 0
    ensures (x + y) / 512 == x / 512 + y / 512
  {
  }

  lemma {:induction false} LinkRequestsLength(a: Request, b: Request, n: nat)
    requires ListOk(a) && ListOk(b) && a.dataLen + b.dataLen < TWO_32
    ensures var r := LinkRequests(a.(nr := n), b);
            r.dataLen == a.dataLen + b.dataLen == Bytes(a.bios + b.bios) && r.Sectors() == a.Sectors() + b.Sectors()
  {
    WholeSectors(a.bios);
    WholeSectors(b.bios);
    SectorsAdd(a.dataLen, b.dataLen);
    BytesAppend(a.bios, b.bios);
  }

  lemma {:induction false} LinkRequestsPlaces(a: Request, b: Request)
    requires ListOk(a) && ListOk(b) && a.sector + a.Sectors() == b.sector
    ensures Contiguous(a.bios + b.bios, a.sector)
  {
    ContiguousAppend(a.bios, b.bios, a.sector);
  }

  lemma {:induction false} LinkRequestsList(a: Request, b: Request, n: nat)
    requires ListOk(a) && ListOk(b) && a.sector + a.Sectors() == b.sector && a.write == b.write
    requires a.dataLen + b.dataLen < TWO_32
    ensures var r := LinkRequests(a.(nr := n), b);
            && ListOk(r) && Ids(r.bios) == Ids(a.bios) + Ids(b.bios) && r.Sectors() == a.Sectors() + b.Sectors()
  {
    LinkRequestsLength(a, b, n);
    LinkRequestsPlaces(a, b);
    IdsAppend(a.bios, b.bios);
  }

  /** The cached sizes at the two ends of the merged request. */
  lemma {:induction false} LinkRequestsEnds(q: Limits, a: Request, b: Request, n: nat)
    requires ListOk(a) && ListOk(b) && HasData(a) && HasData(b)
    ensures var r := LinkRequests(SeamFront(q, a, b).(nr := n), SeamBack(q, a, b));
            var adjoins := Adjoins(q, a.Biotail(), b.bios[0]);
            && r.Linked()
            && r.bios[0].segFront == (if adjoins && a.nr == 1 then SeamSize(a, b) else a.bios[0].segFront)
            && r.Biotail().segBack == (if adjoins && b.nr == 1 then SeamSize(a, b) else b.Biotail().segBack)
  {
  }

  lemma {:induction false} LinkRequestsData(q: Limits, a: Request, b: Request, n: nat)
    requires Sound(q, a) && Sound(q, b) && HasData(a) && HasData(b) && SeamSum(a, b) < TWO_32
    ensures Data(LinkRequests(SeamFront(q, a, b).(nr := n), SeamBack(q, a, b)).bios) == Data(a.bios) + Data(b.bios)
  {
    SeamFrontOk(q, a, b);
    SeamBackOk(q, a, b);
    DataAppend(SeamFront(q, a, b).bios, SeamBack(q, a, b).bios);
  }

  /** The merged segment count, with or without a run over the seam. */
  lemma {:induction false} SeamBounded(q: Limits, a: Request, b: Request)
    requires Sound(q, a) && Sound(q, b) && HasData(a) && HasData(b) && SeamSum(a, b) < TWO_32
    ensures var adjoins := Adjoins(q, a.Biotail(), b.bios[0]);
            Bounded(q, Data(a.bios) + Data(b.bios), TotalCount(q, a, b),
                    if adjoins && a.nr == 1 then SeamSize(a, b) else a.bios[0].segFront,
                    if adjoins && b.nr == 1 then SeamSize(a, b) else b.Biotail().segBack)
  {
    if Adjoins(q, a.Biotail(), b.bios[0]) {
      DataEnds(a.bios);
      DataEnds(b.bios);
      BoundedJoined(q, Data(a.bios), a.nr, a.bios[0].segFront, a.Biotail().segBack,
                    Data(b.bios), b.nr, b.bios[0].segFront, b.Biotail().segBack);
    } else {
      BoundedApart(q, Data(a.bios), a.nr, a.bios[0].segFront, a.Biotail().segBack,
                   Data(b.bios), b.nr, b.bios[0].segFront, b.Biotail().segBack);
    }
  }

  lemma {:induction false} LinkRequestsSegments(q: Limits, a: Request, b: Request)
    requires Sound(q, a) && Sound(q, b) && HasData(a) && HasData(b) && SeamSum(a, b) < TWO_32
    ensures var r := LinkRequests(SeamFront(q, a, b).(nr := TotalCount(q, a, b)), SeamBack(q, a, b));
            r.Linked() && SegmentsOk(q, r)
  {
    LinkRequestsEnds(q, a, b, TotalCount(q, a, b));
    LinkRequestsData(q, a, b, TotalCount(q, a, b));
    SeamBounded(q, a, b);
  }

  /** Requests that pass the sector limit have a length of 32 bits together. */
  lemma {:induction false} MergedLengthFits(q: Limits, a: Request, b: Request)
    requires ListOk(a) && ListOk(b) && Short(q) && a.Sectors() + b.Sectors() <= q.maxSectors
    ensures a.dataLen + b.dataLen < TWO_32
  {
    WholeSectors(a.bios);
    WholeSectors(b.bios);
  }

  /** What attempt_merge has checked when it accepts, and what it may have changed when it does not. */
  lemma {:induction false} AttemptOutcome(q: Limits, a: Request, b: Request)
    requires HasData(a) && HasData(b) && a.sector + a.Sectors() < TWO_64
    ensures var (a', b', ok) := AttemptMerge(q, a, b);
            && (!ok ==>
                  || (a' == a && b' == b)
                  || (a' == SeamFront(q, a, b) && b' == SeamBack(q, a, b) && TotalCount(q, a, b) > q.maxSegments))
            && (ok ==>
                  && a' == LinkRequests(SeamFront(q, a, b).(nr := TotalCount(q, a, b)), SeamBack(q, a, b))
                  && a.write == b.write && a.sector + a.Sectors() == b.sector
                  && a.Sectors() + b.Sectors() <= q.maxSectors && TotalCount(q, a, b) <= q.maxSegments)
  {
  }

  /** Right after one of them took a bio, a refused merge leaves both requests as they were. */
  lemma {:induction false} RefusedUnchanged(q: Limits, a: Request, b: Request)
    requires HasData(a) && HasData(b) && a.sector + a.Sectors() < TWO_64 && (Grown(q, a) || Grown(q, b))
    ensures var (a', b', ok) := AttemptMerge(q, a, b); !ok ==> a' == a && b' == b
  {
    AttemptOutcome(q, a, b);
  }

  lemma {:induction false} AttemptMergeOk(q: Limits, a: Request, b: Request)
    requires RequestOk(q, a) && RequestOk(q, b) && HasData(a) && HasData(b) && Short(q) && (Grown(q, a) || Grown(q, b))
    ensures var (a', b', ok) := AttemptMerge(q, a, b);
            && RequestOk(q, a')
            && (ok ==> Ids(a'.bios) == Ids(a.bios) + Ids(b.bios))
            && (!ok ==> a' == a && b' == b)
  {
    AttemptOutcome(q, a, b);
    RefusedUnchanged(q, a, b);
    if AttemptMerge(q, a, b).2 {
      AcceptedMergeOk(q, a, b);
    }
  }

  lemma {:induction false} AcceptedMergeOk(q: Limits, a: Request, b: Request)
    requires RequestOk(q, a) && RequestOk(q, b) && HasData(a) && HasData(b) && Short(q)
    requires a.write == b.write && a.sector + a.Sectors() == b.sector
    requires a.Sectors() + b.Sectors() <= q.maxSectors && TotalCount(q, a, b) <= q.maxSegments
    ensures var r := LinkRequests(SeamFront(q, a, b).(nr := TotalCount(q, a, b)), SeamBack(q, a, b));
            RequestOk(q, r) && Ids(r.bios) == Ids(a.bios) + Ids(b.bios)
  {
    SeamFits(q, a, b);
    AcceptedSound(q, a, b);
    AcceptedCapped(q, a, b);
  }

  lemma {:induction false} AcceptedSound(q: Limits, a: Request, b: Request)
    requires Sound(q, a) && Sound(q, b) && HasData(a) && HasData(b)
    requires SeamSum(a, b) < TWO_32 && a.dataLen + b.dataLen < TWO_32
    requires a.write == b.write && a.sector + a.Sectors() == b.sector
    requires a.Sectors() + b.Sectors() <= q.maxSectors && TotalCount(q, a, b) <= q.maxSegments
    ensures var r := LinkRequests(SeamFront(q, a, b).(nr := TotalCount(q, a, b)), SeamBack(q, a, b));
            Sound(q, r) && Ids(r.bios) == Ids(a.bios) + Ids(b.bios)
  {
    SeamFrontOk(q, a, b);
    SeamBackOk(q, a, b);
    var a1, b1, n := SeamFront(q, a, b), SeamBack(q, a, b), TotalCount(q, a, b);
    assert a1.sector + a1.Sectors() == b1.sector && a1.write == b1.write && a1.dataLen + b1.dataLen < TWO_32;
    LinkRequestsList(a1, b1, n);
    LinkRequestsSegments(q, a, b);
  }

  lemma {:induction false} AcceptedCapped(q: Limits, a: Request, b: Request)
    requires ListOk(a) && ListOk(b) && HasData(a) && HasData(b) && Capped(a) && Capped(b)
    requires SeamSize(a, b) <= a.dataLen + b.dataLen < TWO_32
    ensures var r := LinkRequests(SeamFront(q, a, b).(nr := TotalCount(q, a, b)), SeamBack(q, a, b));
            r.Linked() && Capped(r)
  {
    LinkRequestsEnds(q, a, b, TotalCount(q, a, b));
  }

  lemma {:induction false} NomergeOk(q: Limits, rq: Request)
    requires RequestOk(q, rq)
    ensures RequestOk(q, rq.(nomerge := true))
  {
  }
}
