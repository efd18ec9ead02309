/**
 blk_update_request: a request is completed in pieces.  The loop over bios and vectors is compared
 with dropping the same number of bytes from the front of the request's data.
 */
module PartialCompletion {
  import opened Segments

  const EIO: int := -5
  const TWO_31: nat := 0x8000_0000
  const TWO_64: nat := 0x1_0000_0000_0000_0000

  // A bio with its vector array and the index of the first vector not done yet.
  datatype Bio = Bio(id: nat, sector: nat, size: nat, vecs: seq<Bvec>, idx: nat, uptodate: bool) {
    predicate Indexed() {
      idx <= |vecs|
    }

    /** The vectors not done yet. */
    function Rest(): seq<Bvec>
      requires Indexed()
    {
      vecs[idx..]
    }

    /** bio_cur_bytes */
    function Cur(): nat {
      if idx < |vecs| then vecs[idx].len else 0
    }
  }

  // What bio_endio reports.
  datatype Ended = Ended(id: nat, error: int)

  // A request with the bios from req->bio on.  bar says that it is the queue's bar_rq; the rest is
  // what the code reports: bios ended, the barrier's error, and its complaints.
  datatype Request = Request(bios: seq<Bio>, sector: nat, dataLen: nat, bar: bool,
                             ended: seq<Ended>, orderr: int, overrun: bool, botched: bool)

  // ---------- blk_update_request ----------

  // The variables of the loop.
  datatype Walk = Walk(bios: seq<Bio>, left: nat, total: nat, bioBytes: nat, nextIdx: nat,
                       ended: seq<Ended>, orderr: int, overrun: bool)

  /** The error a bio is ended with. */
  function Verdict(b: Bio, error: int): Ended {
    Ended(b.id, if error != 0 then error else if b.uptodate then 0 else EIO)
  }

  /** The first error of a barrier is kept. */
  function Record(orderr: int, error: int): int {
    if error != 0 && orderr == 0 then error else orderr
  }

  /** One turn of the loop for a bio that is done as a whole. */
  function PassBio(w: Walk, bar: bool, error: int): Walk
    requires w.bios != [] && w.left >= w.bios[0].size
  {
    var b := w.bios[0];
    Walk(w.bios[1..], w.left - b.size, w.total + b.size, 0, 0,
         if bar then w.ended else w.ended + [Verdict(b, error)],
         if bar then Record(w.orderr, error) else w.orderr, w.overrun)
  }

  /** The vectors of the first bio that are left to walk. */
  function VectorsLeft(w: Walk): nat {
    if w.bios == [] then 0
    else if w.bios[0].idx + w.nextIdx >= |w.bios[0].vecs| then 0
    else |w.bios[0].vecs| - w.bios[0].idx - w.nextIdx
  }

  /** One turn of the loop for a vector that is done as a whole. */
  function TakeVector(w: Walk): Walk
    requires w.bios != [] && w.bios[0].idx + w.nextIdx < |w.bios[0].vecs|
    requires w.bios[0].vecs[w.bios[0].idx + w.nextIdx].len <= w.left
  {
    var n := w.bios[0].vecs[w.bios[0].idx + w.nextIdx].len;
    w.(nextIdx := w.nextIdx + 1, bioBytes := w.bioBytes + n, total := w.total + n, left := w.left - n)
  }

  /** The loop, from one turn on. */
  function Loop(w: Walk, bar: bool, error: int): Walk
    decreases |w.bios|, VectorsLeft(w)
  {
    if w.bios == [] then w
    else if w.left >= w.bios[0].size then
      var w' := PassBio(w, bar, error);
      if w'.bios != [] && w'.left == 0 then w' else Loop(w', bar, error)
    else
      var b, i := w.bios[0], w.bios[0].idx + w.nextIdx;
      if i >= |b.vecs| then w.(overrun := true)
      else if b.vecs[i].len > w.left then w.(bioBytes := w.bioBytes + w.left, total := w.total + w.left)
      else
        var w' := TakeVector(w);
        if w'.left == 0 then w' else Loop(w', bar, error)
  }

  /** req_bio_endio and the index arithmetic for a bio that stays. */
  function Shorten(b: Bio, bytes: nat, steps: nat, left: nat, bar: bool, error: int): Bio {
    var n := if bytes > b.size then b.size else bytes;
    var b1 := if bar then b
              else b.(size := b.size - n, sector := b.sector + n / 512, uptodate := b.uptodate && error == 0);
    var b2 := b1.(idx := b.idx + steps);
    if b2.idx < |b2.vecs| && left <= b2.vecs[b2.idx].len then
      b2.(vecs := b2.vecs[b2.idx := b2.vecs[b2.idx].(offset := b2.vecs[b2.idx].offset + left,
                                                     len := b2.vecs[b2.idx].len - left)])
    else b2
  }

  /** The first of the bios that stay. */
  function FirstLeft(w: Walk, bar: bool, error: int): Bio
    requires w.bios != []
  {
    if w.bioBytes != 0 then Shorten(w.bios[0], w.bioBytes, w.nextIdx, w.left, bar, error) else w.bios[0]
  }

  /** A number of bytes in a signed int. */
  function Signed32(n: nat): (r: int)
    ensures 0 - TWO_31 <= r < TWO_31
  {
    if n < TWO_31 then n else if n < TWO_32 then n - TWO_32 else (n + TWO_31) % TWO_32 - TWO_31
  }

  /** The sector after total bytes: the shift of a signed int, added to 64 bits. */
  function Moved(sector: nat, total: nat): nat {
    var s := sector + Signed32(total) / 512;
    if s < 0 then s + TWO_64 else if s >= TWO_64 then s - TWO_64 else s
  }

  /** What blk_update_request does after the loop when bios are left. */
  function Leave(rq: Request, w: Walk, error: int): Request
    requires w.bios != []
  {
    var b := FirstLeft(w, rq.bar, error);
    var len := (rq.dataLen - w.total) % TWO_32;
    var botched := len < b.Cur();
    Request([b] + w.bios[1..], Moved(rq.sector, w.total), if botched then b.Cur() else len, rq.bar,
            w.ended, if w.bioBytes != 0 && rq.bar then Record(w.orderr, error) else w.orderr,
            w.overrun, rq.botched || botched)
  }

  /** blk_update_request: the request afterwards, and whether there is more to do. */
  function Update(rq: Request, error: int, bytes: nat): (Request, bool) {
    if rq.bios == [] then (rq, false)
    else
      var w := Loop(Walk(rq.bios, bytes, 0, 0, 0, rq.ended, rq.orderr, rq.overrun), rq.bar, error);
      if w.bios == []
      then (rq.(bios := [], dataLen := 0, ended := w.ended, orderr := w.orderr, overrun := w.overrun), false)
      else (Leave(rq, w, error), true)
  }

  // ---------- The reference: dropping bytes from the front ----------

  function DropBytes(vs: seq<Bvec>, n: nat): seq<Bvec> {
    if vs == [] || n == 0 then vs
    else if n >= vs[0].len then DropBytes(vs[1..], n - vs[0].len)
    else [vs[0].(offset := vs[0].offset + n, len := vs[0].len - n)] + vs[1..]
  }

  // What is left of a bio, without the vectors that are done.
  datatype Tail = Tail(id: nat, vecs: seq<Bvec>, uptodate: bool)

  function TailOf(b: Bio): Tail
    requires b.Indexed()
  {
    Tail(b.id, b.Rest(), b.uptodate)
  }

  /** A bio's data is not done and its size is that of the data. */
  predicate BioOk(b: Bio) {
    && b.Indexed() && b.size == Size(b.Rest()) && 0 < b.size < TWO_32 && b.size % 512 == 0
    && forall i :: b.idx <= i < |b.vecs| ==> b.vecs[i].len > 0
  }

  function Bytes(bios: seq<Bio>): nat {
    if bios == [] then 0 else bios[0].size + Bytes(bios[1..])
  }

  predicate BiosOk(bios: seq<Bio>) {
    forall i :: 0 <= i < |bios| ==> BioOk(bios[i])
  }

  predicate Contiguous(bios: seq<Bio>, s: nat) {
    bios == [] || (bios[0].sector == s && Contiguous(bios[1..], s + bios[0].size / 512))
  }

  predicate RequestOk(rq: Request) {
    && BiosOk(rq.bios) && rq.dataLen == Bytes(rq.bios) < TWO_32
    && !rq.overrun && !rq.botched
  }

  /** The bios lie one after the other from the request's sector on, on the device. */
  predicate Placed(rq: Request) {
    Contiguous(rq.bios, rq.sector) && rq.sector + rq.dataLen / 512 < TWO_64
  }

  function Tails(bios: seq<Bio>): seq<Tail>
    requires BiosOk(bios)
  {
    if bios == [] then [] else [TailOf(bios[0])] + Tails(bios[1..])
  }

  /** What is left of the bios after n bytes. */
  function Remaining(bios: seq<Bio>, n: nat, error: int): seq<Tail>
    requires BiosOk(bios)
  {
    if bios == [] then []
    else if n >= bios[0].size then Remaining(bios[1..], n - bios[0].size, error)
    else
      var t := TailOf(bios[0]);
      [t.(vecs := DropBytes(t.vecs, n), uptodate := t.uptodate && (n == 0 || error == 0))] + Tails(bios[1..])
  }

  /** The bios that end within n bytes, in order. */
  function EndedWithin(bios: seq<Bio>, n: nat, error: int): seq<Ended> {
    if bios == [] || n < bios[0].size then []
    else [Verdict(bios[0], error)] + EndedWithin(bios[1..], n - bios[0].size, error)
  }

  // ---------- Dropping bytes ----------

  lemma {:induction false} SizeCons(vs: seq<Bvec>)
    requires vs != []
    ensures Size(vs) == vs[0].len + Size(vs[1..])
  {
    assert vs == ([] + [vs[0]]) + vs[1..];
    SizeAppend([] + [vs[0]], vs[1..]);
    SizeSnoc([], vs[0]);
  }

  /** Taking off whole vectors, and left bytes of the next. */
  lemma {:induction false} DropSteps(vs: seq<Bvec>, steps: nat, left: nat)
    requires steps < |vs| && left < vs[steps].len && forall i :: 0 <= i < |vs| ==> vs[i].len > 0
    ensures DropBytes(vs, Size(vs[..steps]) + left)
         == [vs[steps].(offset := vs[steps].offset + left, len := vs[steps].len - left)] + vs[steps + 1..]
    decreases steps
  {
    if steps == 0 {
      assert vs[..0] == [];
      assert vs == [vs[0]] + vs[1..];
    } else {
      var ws := vs[1..];
      SizeCons(vs[..steps]);
      assert vs[..steps][1..] == ws[..steps - 1];
      DropSteps(ws, steps - 1, left);
      assert ws[steps - 1] == vs[steps] && ws[steps..] == vs[steps + 1..];
    }
  }

  lemma {:induction false} DropSize(vs: seq<Bvec>, n: nat)
    requires n < Size(vs) && forall i :: 0 <= i < |vs| ==> vs[i].len > 0
    ensures Size(DropBytes(vs, n)) == Size(vs) - n && DropBytes(vs, n) != []
    ensures forall i :: 0 <= i < |DropBytes(vs, n)| ==> DropBytes(vs, n)[i].len > 0
  {
    SizeCons(vs);
    if n == 0 {
    } else if n >= vs[0].len {
      DropSize(vs[1..], n - vs[0].len);
    } else {
      DropInFirst(vs, n);
    }
  }

  lemma {:induction false} DropInFirst(vs: seq<Bvec>, n: nat)
    requires vs != [] && 0 < n < vs[0].len && forall i :: 0 <= i < |vs| ==> vs[i].len > 0
    ensures Size(DropBytes(vs, n)) == Size(vs) - n && DropBytes(vs, n) != []
    ensures forall i :: 0 <= i < |DropBytes(vs, n)| ==> DropBytes(vs, n)[i].len > 0
  {
    SizeCons(vs);
    SizeCons(DropBytes(vs, n));
    assert DropBytes(vs, n)[1..] == vs[1..];
  }

  /** Dropping in two goes is dropping at once. */
  lemma {:induction false} DropTwice(vs: seq<Bvec>, m: nat, n: nat)
    requires m + n < Size(vs) && forall i :: 0 <= i < |vs| ==> vs[i].len > 0
    ensures DropBytes(DropBytes(vs, m), n) == DropBytes(vs, m + n)
  {
    SizeCons(vs);
    if m == 0 || n == 0 {
      DropSize(vs, m);
    } else if m >= vs[0].len {
      DropTwice(vs[1..], m - vs[0].len, n);
    } else {
      assert DropBytes(vs, m)[1..] == vs[1..];
    }
  }

  // ---------- The loop inside one bio ----------

  /** The loop has taken steps vectors of the first bio and some bytes remain, fewer than the bio has. */
  predicate InBio(w: Walk) {
    && w.bios != [] && BioOk(w.bios[0])
    && w.bios[0].idx + w.nextIdx <= |w.bios[0].vecs|
    && w.bioBytes == Size(w.bios[0].vecs[w.bios[0].idx..w.bios[0].idx + w.nextIdx])
    && w.bioBytes + w.left < w.bios[0].size
  }

  /** The loop has stopped within a vector of the first bio. */
  predicate StoppedIn(w: Walk) {
    && w.bios != [] && w.bios[0].idx + w.nextIdx < |w.bios[0].vecs|
    && w.left < w.bios[0].vecs[w.bios[0].idx + w.nextIdx].len
    && w.bioBytes == Size(w.bios[0].vecs[w.bios[0].idx..w.bios[0].idx + w.nextIdx]) + w.left
  }

  lemma {:induction false} SizeStep(vs: seq<Bvec>, lo: nat, hi: nat)
    requires lo <= hi < |vs|
    ensures Size(vs[lo..hi + 1]) == Size(vs[lo..hi]) + vs[hi].len
  {
    assert vs[lo..hi + 1] == vs[lo..hi] + [vs[hi]];
    SizeSnoc(vs[lo..hi], vs[hi]);
  }

  /** Vectors remain as long as bytes of the bio do: the complaint about the index is never made. */
  lemma {:induction false} VectorsRemain(w: Walk)
    requires InBio(w)
    ensures w.bios[0].idx + w.nextIdx < |w.bios[0].vecs|
  {
    var b := w.bios[0];
    assert b.vecs[b.idx..|b.vecs|] == b.Rest();
  }

  lemma {:induction false} TakeInBio(w: Walk)
    requires InBio(w) && w.bios[0].idx + w.nextIdx < |w.bios[0].vecs|
    requires w.bios[0].vecs[w.bios[0].idx + w.nextIdx].len <= w.left
    ensures InBio(TakeVector(w)) && VectorsLeft(TakeVector(w)) < VectorsLeft(w)
    ensures TakeVector(w).left == 0 ==> StoppedIn(TakeVector(w))
  {
    var b := w.bios[0];
    SizeStep(b.vecs, b.idx, b.idx + w.nextIdx);
    assert b.idx + TakeVector(w).nextIdx == b.idx + w.nextIdx + 1;
    VectorsRemain(TakeVector(w));
  }

  lemma {:induction false} LoopInBio(w: Walk, bar: bool, error: int)
    requires InBio(w) && (w.left > 0 || w.nextIdx == 0)
    ensures var r := Loop(w, bar, error);
            && r.bios == w.bios && r.ended == w.ended && r.orderr == w.orderr && r.overrun == w.overrun
            && r.total == w.total + w.left && r.bioBytes == w.bioBytes + w.left
            && StoppedIn(r)
    decreases VectorsLeft(w)
  {
    VectorsRemain(w);
    if w.bios[0].vecs[w.bios[0].idx + w.nextIdx].len <= w.left {
      TakeInBio(w);
      if TakeVector(w).left > 0 {
        LoopInBio(TakeVector(w), bar, error);
      }
    }
  }

  // ---------- The loop over bios ----------

  /** The bios that n bytes do not finish. */
  function Unfinished(bios: seq<Bio>, n: nat): seq<Bio> {
    if bios == [] || n < bios[0].size then bios else Unfinished(bios[1..], n - bios[0].size)
  }

  /** The bytes that n bytes take of the first unfinished bio. */
  function Into(bios: seq<Bio>, n: nat): nat {
    if bios == [] || n < bios[0].size then n else Into(bios[1..], n - bios[0].size)
  }

  lemma {:induction false} UnfinishedOk(bios: seq<Bio>, n: nat)
    requires BiosOk(bios)
    ensures BiosOk(Unfinished(bios, n))
    ensures Unfinished(bios, n) == [] <==> n >= Bytes(bios)
    ensures n < Bytes(bios) ==> Into(bios, n) < Unfinished(bios, n)[0].size
    ensures n < Bytes(bios) ==> Bytes(Unfinished(bios, n)) == Bytes(bios) - n + Into(bios, n)
  {
    if bios != [] && n >= bios[0].size {
      UnfinishedOk(bios[1..], n - bios[0].size);
    }
  }

  lemma {:induction false} PassEnds(w: Walk, error: int)
    requires w.bios != [] && w.left >= w.bios[0].size
    ensures var w' := PassBio(w, false, error);
            w'.ended + EndedWithin(w'.bios, w'.left, error) == w.ended + EndedWithin(w.bios, w.left, error)
  {
  }

  /** Stopping because no bytes are left is what the next turn would do. */
  lemma {:induction false} LoopPasses(w: Walk, error: int)
    requires BiosOk(w.bios) && w.bios != [] && w.left >= w.bios[0].size
    ensures var w' := PassBio(w, false, error);
            var r := Loop(w, false, error);
            r == Loop(w', false, error) || (r == w' && w'.left == 0 && w'.bios != [])
    ensures var w' := PassBio(w, false, error);
            w'.left == 0 && w'.bios != [] ==>
              EndedWithin(w'.bios, 0, error) == [] && Unfinished(w'.bios, 0) == w'.bios && Into(w'.bios, 0) == 0
  {
  }

  /** What the loop of an ordinary request does: whole bios end, and the rest of the bytes go into the next. */
  lemma {:induction false} LoopResult(w: Walk, error: int)
    requires BiosOk(w.bios) && w.nextIdx == 0 && w.bioBytes == 0
    ensures var r := Loop(w, false, error);
            && r.bios == Unfinished(w.bios, w.left)
            && r.ended == w.ended + EndedWithin(w.bios, w.left, error)
            && r.overrun == w.overrun
            && (r.bios != [] ==> r.total == w.total + w.left && r.bioBytes == Into(w.bios, w.left))
            && (r.bios != [] && r.bioBytes != 0 ==> StoppedIn(r))
    decreases |w.bios|
  {
    if w.bios == [] {
      assert w.ended + [] == w.ended;
    } else if w.left >= w.bios[0].size {
      LoopResult(PassBio(w, false, error), error);
      PassEnds(w, error);
      LoopPasses(w, error);
    } else {
      assert w.bios[0].vecs[w.bios[0].idx..w.bios[0].idx] == [];
      LoopInBio(w, false, error);
      assert w.ended + [] == w.ended;
    }
  }

  // ---------- One call ----------

  /** What n bytes leave of a bio. */
  function Trim(b: Bio, n: nat, error: int): Tail
    requires b.Indexed()
  {
    TailOf(b).(vecs := DropBytes(b.Rest(), n), uptodate := b.uptodate && (n == 0 || error == 0))
  }

  lemma {:induction false} RemainingSplit(bios: seq<Bio>, n: nat, error: int)
    requires BiosOk(bios) && n < Bytes(bios)
    ensures BiosOk(Unfinished(bios, n)) && Unfinished(bios, n) != []
    ensures Remaining(bios, n, error)
         == [Trim(Unfinished(bios, n)[0], Into(bios, n), error)] + Tails(Unfinished(bios, n)[1..])
  {
    UnfinishedOk(bios, n);
    if n >= bios[0].size {
      RemainingSplit(bios[1..], n - bios[0].size, error);
    }
  }

  lemma {:induction false} RemainingNone(bios: seq<Bio>, n: nat, error: int)
    requires BiosOk(bios) && n >= Bytes(bios)
    ensures Remaining(bios, n, error) == []
  {
    if bios != [] {
      RemainingNone(bios[1..], n - bios[0].size, error);
    }
  }

  lemma {:induction false} WholeSub(a: nat, b: nat)
    requires a % 512 == 0 && b % 512 == 0 && b <= a
    ensures (a - b) % 512 == 0 && (a - b) / 512 == a / 512 - b / 512
  {
  }

  lemma {:induction false} PlacesKept(bios: seq<Bio>, n: nat, s: nat) returns (s': nat)
    requires BiosOk(bios) && n < Bytes(bios) && n % 512 == 0 && Contiguous(bios, s)
    ensures Into(bios, n) % 512 == 0 && s' + Into(bios, n) / 512 == s + n / 512
    ensures Contiguous(Unfinished(bios, n), s')
  {
    s' := s;
    if n >= bios[0].size {
      WholeSub(n, bios[0].size);
      s' := PlacesKept(bios[1..], n - bios[0].size, s + bios[0].size / 512);
    }
  }

  lemma {:induction false} IntoWhole(bios: seq<Bio>, n: nat)
    requires BiosOk(bios) && n % 512 == 0
    ensures Into(bios, n) % 512 == 0
  {
    if bios != [] && n >= bios[0].size {
      WholeSub(n, bios[0].size);
      IntoWhole(bios[1..], n - bios[0].size);
    }
  }

  lemma {:induction false} RestSplit(vecs: seq<Bvec>, lo: nat, i: nat, v: Bvec)
    requires lo <= i < |vecs|
    ensures vecs[i := v][i..] == [v] + vecs[lo..][i - lo + 1..]
    ensures vecs[lo..][..i - lo] == vecs[lo..i] && vecs[lo..][i - lo] == vecs[i]
  {
  }

  lemma {:induction false} RestDropped(vecs: seq<Bvec>, lo: nat, i: nat, left: nat)
    requires lo <= i < |vecs| && left < vecs[i].len && forall k :: lo <= k < |vecs| ==> vecs[k].len > 0
    ensures vecs[i := vecs[i].(offset := vecs[i].offset + left, len := vecs[i].len - left)][i..]
         == DropBytes(vecs[lo..], Size(vecs[lo..i]) + left)
  {
    RestSplit(vecs, lo, i, vecs[i].(offset := vecs[i].offset + left, len := vecs[i].len - left));
    DropSteps(vecs[lo..], i - lo, left);
  }

  /** The index arithmetic leaves exactly the data that was not done. */
  lemma {:induction false} ShortenRest(b: Bio, bytes: nat, steps: nat, left: nat, error: int)
    requires BioOk(b) && 0 < bytes < b.size && b.idx + steps < |b.vecs|
    requires left < b.vecs[b.idx + steps].len && bytes == Size(b.vecs[b.idx..b.idx + steps]) + left
    ensures var b' := Shorten(b, bytes, steps, left, false, error);
            b'.Indexed() && b'.Rest() == DropBytes(b.Rest(), bytes)
  {
    ShortenFields(b, bytes, steps, left, error);
    RestDropped(b.vecs, b.idx, b.idx + steps, left);
  }

  lemma {:induction false} ShortenFields(b: Bio, bytes: nat, steps: nat, left: nat, error: int)
    requires bytes <= b.size && b.idx + steps < |b.vecs| && left <= b.vecs[b.idx + steps].len
    ensures var i := b.idx + steps;
            var v := b.vecs[i].(offset := b.vecs[i].offset + left, len := b.vecs[i].len - left);
            Shorten(b, bytes, steps, left, false, error)
            == Bio(b.id, b.sector + bytes / 512, b.size - bytes, b.vecs[i := v], i, b.uptodate && error == 0)
  {
  }

  lemma {:induction false} PositiveRest(b: Bio)
    requires BioOk(b)
    ensures forall i :: 0 <= i < |b.Rest()| ==> b.Rest()[i].len > 0
  {
  }

  lemma {:induction false} ShortenOk(b: Bio, bytes: nat, steps: nat, left: nat, error: int)
    requires BioOk(b) && 0 < bytes < b.size && bytes % 512 == 0 && b.idx + steps < |b.vecs|
    requires left < b.vecs[b.idx + steps].len && bytes == Size(b.vecs[b.idx..b.idx + steps]) + left
    ensures var b' := Shorten(b, bytes, steps, left, false, error);
            && BioOk(b') && TailOf(b') == Trim(b, bytes, error)
            && b'.size == b.size - bytes && b'.sector == b.sector + bytes / 512
  {
    var b' := Shorten(b, bytes, steps, left, false, error);
    ShortenFields(b, bytes, steps, left, error);
    ShortenRest(b, bytes, steps, left, error);
    WholeSub(b.size, bytes);
    PositiveRest(b);
    DropSize(b.Rest(), bytes);
    forall i | b'.idx <= i < |b'.vecs|
      ensures b'.vecs[i].len > 0
    {
      assert b'.vecs[i] == b'.Rest()[i - b'.idx];
    }
  }

  lemma {:induction false} FirstLeftOk(w: Walk, error: int)
    requires w.bios != [] && BioOk(w.bios[0]) && w.bioBytes < w.bios[0].size && w.bioBytes % 512 == 0
    requires w.bioBytes != 0 ==> StoppedIn(w)
    ensures var b := FirstLeft(w, false, error);
            && BioOk(b) && TailOf(b) == Trim(w.bios[0], w.bioBytes, error)
            && b.size == w.bios[0].size - w.bioBytes && b.sector == w.bios[0].sector + w.bioBytes / 512
  {
    if w.bioBytes != 0 {
      ShortenOk(w.bios[0], w.bioBytes, w.nextIdx, w.left, error);
    }
  }

  /** The length is at least that of the current vector: the request is never botched. */
  lemma {:induction false} CurFits(b: Bio)
    requires BioOk(b)
    ensures b.Cur() <= b.size
  {
    if b.idx < |b.vecs| {
      SizeCons(b.Rest());
    }
  }

  lemma {:induction false} UpdateDone(rq: Request, error: int, bytes: nat)
    requires RequestOk(rq) && !rq.bar && bytes >= Bytes(rq.bios)
    ensures var (rq', more) := Update(rq, error, bytes);
            && !more && rq'.bios == [] && RequestOk(rq')
            && rq'.ended == rq.ended + EndedWithin(rq.bios, bytes, error)
  {
    if rq.bios == [] {
      assert rq.ended + [] == rq.ended;
    } else {
      LoopResult(Walk(rq.bios, bytes, 0, 0, 0, rq.ended, rq.orderr, rq.overrun), error);
      UnfinishedOk(rq.bios, bytes);
    }
  }

  lemma {:induction false} ListLeftOk(bios: seq<Bio>, b: Bio, into: nat)
    requires BiosOk(bios) && bios != [] && BioOk(b) && into < bios[0].size && b.size == bios[0].size - into
    ensures BiosOk([b] + bios[1..]) && b.size <= Bytes([b] + bios[1..]) == Bytes(bios) - into
    ensures Tails([b] + bios[1..]) == [TailOf(b)] + Tails(bios[1..])
  {
    assert ([b] + bios[1..])[1..] == bios[1..];
  }

  lemma {:induction false} LeaveFields(rq: Request, w: Walk, error: int, b: Bio)
    requires w.bios != [] && !rq.bar && b == FirstLeft(w, false, error)
    requires w.total <= rq.dataLen < TWO_32 && b.Cur() <= rq.dataLen - w.total
    ensures Leave(rq, w, error)
         == Request([b] + w.bios[1..], Moved(rq.sector, w.total), rq.dataLen - w.total, false,
                    w.ended, w.orderr, w.overrun, rq.botched)
  {
  }

  lemma {:induction false} LeftList(bios: seq<Bio>, w: Walk, error: int, bytes: nat)
    requires BiosOk(bios) && bytes < Bytes(bios) && bytes % 512 == 0
    requires w.bios == Unfinished(bios, bytes) && w.bioBytes == Into(bios, bytes)
    requires w.bios != [] && (w.bioBytes != 0 ==> StoppedIn(w))
    ensures var b := FirstLeft(w, false, error);
            var bios' := [b] + w.bios[1..];
            && BiosOk(bios') && Bytes(bios') == Bytes(bios) - bytes && b.Cur() <= Bytes(bios')
            && Tails(bios') == Remaining(bios, bytes, error)
  {
    UnfinishedOk(bios, bytes);
    IntoWhole(bios, bytes);
    FirstLeftOk(w, error);
    var b := FirstLeft(w, false, error);
    CurFits(b);
    ListLeftOk(w.bios, b, w.bioBytes);
    RemainingSplit(bios, bytes, error);
  }

  lemma {:induction false} LeaveOk(rq: Request, w: Walk, error: int, bytes: nat)
    requires RequestOk(rq) && !rq.bar && bytes < Bytes(rq.bios) && bytes % 512 == 0
    requires w.bios == Unfinished(rq.bios, bytes) && w.bioBytes == Into(rq.bios, bytes)
    requires w.total == bytes && !w.overrun
    requires w.bios != [] && (w.bioBytes != 0 ==> StoppedIn(w))
    ensures var rq' := Leave(rq, w, error);
            && RequestOk(rq') && Tails(rq'.bios) == Remaining(rq.bios, bytes, error)
            && rq'.dataLen == rq.dataLen - bytes && rq'.sector == Moved(rq.sector, bytes)
  {
    LeftList(rq.bios, w, error, bytes);
    LeaveFields(rq, w, error, FirstLeft(w, false, error));
  }

  lemma {:induction false} UpdateMore(rq: Request, error: int, bytes: nat)
    requires RequestOk(rq) && !rq.bar && bytes < Bytes(rq.bios) && bytes % 512 == 0
    ensures var (rq', more) := Update(rq, error, bytes);
            && more && RequestOk(rq') && !rq'.bar
            && Tails(rq'.bios) == Remaining(rq.bios, bytes, error)
            && rq'.ended == rq.ended + EndedWithin(rq.bios, bytes, error)
            && rq'.dataLen == rq.dataLen - bytes && rq'.sector == Moved(rq.sector, bytes)
  {
    var start := Walk(rq.bios, bytes, 0, 0, 0, rq.ended, rq.orderr, rq.overrun);
    LoopResult(start, error);
    UnfinishedOk(rq.bios, bytes);
    LeaveOk(rq, Loop(start, false, error), error, bytes);
  }

  // ---------- The sector of the rest ----------

  /** The bios that are left lie where the bytes that are left do. */
  lemma {:induction false} LeftPlaces(bios: seq<Bio>, s: nat, w: Walk, error: int, bytes: nat)
    requires BiosOk(bios) && Contiguous(bios, s) && bytes < Bytes(bios) && bytes % 512 == 0
    requires w.bios == Unfinished(bios, bytes) && w.bioBytes == Into(bios, bytes)
    requires w.bios != [] && (w.bioBytes != 0 ==> StoppedIn(w))
    ensures Contiguous([FirstLeft(w, false, error)] + w.bios[1..], s + bytes / 512)
  {
    UnfinishedOk(bios, bytes);
    var s' := PlacesKept(bios, bytes, s);
    FirstLeftPlace(w, error);
    PlacesFrom(w.bios, FirstLeft(w, false, error), s', w.bioBytes);
  }

  lemma {:induction false} FirstLeftPlace(w: Walk, error: int)
    requires w.bios != [] && BioOk(w.bios[0]) && w.bioBytes < w.bios[0].size && w.bioBytes % 512 == 0
    requires w.bioBytes != 0 ==> StoppedIn(w)
    ensures var b := FirstLeft(w, false, error);
            b.size == w.bios[0].size - w.bioBytes && b.sector == w.bios[0].sector + w.bioBytes / 512
  {
    FirstLeftOk(w, error);
  }

  lemma {:induction false} PlacesFrom(bios: seq<Bio>, b: Bio, s: nat, into: nat)
    requires bios != [] && Contiguous(bios, s) && bios[0].size % 512 == 0 && into < bios[0].size && into % 512 == 0
    requires b.size == bios[0].size - into && b.sector == bios[0].sector + into / 512
    ensures Contiguous([b] + bios[1..], s + into / 512)
  {
    WholeSub(bios[0].size, into);
    assert ([b] + bios[1..])[1..] == bios[1..];
  }

  lemma {:induction false} UpdatePlaces(rq: Request, error: int, n: nat)
    requires RequestOk(rq) && !rq.bar && Contiguous(rq.bios, rq.sector) && n < Bytes(rq.bios) && n % 512 == 0
    ensures Contiguous(Update(rq, error, n).0.bios, rq.sector + n / 512) && Update(rq, error, n).0.bios != []
  {
    var start := Walk(rq.bios, n, 0, 0, 0, rq.ended, rq.orderr, rq.overrun);
    LoopResult(start, error);
    UnfinishedOk(rq.bios, n);
    LeftPlaces(rq.bios, rq.sector, Loop(start, false, error), error, n);
  }

  /** From 2^31 bytes on the signed total takes 2^23 sectors away. */
  lemma {:induction false} ShiftedTotal(total: nat)
    requires total < TWO_32 && total % 512 == 0
    ensures Signed32(total) / 512 == (if total < TWO_31 then total / 512 else total / 512 - TWO_32 / 512)
  {
  }

  /** The request's sector follows its bios exactly in calls for fewer than 2^31 bytes. */
  lemma {:induction false} SectorIsExact(rq: Request, error: int, n: nat)
    requires RequestOk(rq) && Placed(rq) && !rq.bar && n < Bytes(rq.bios) && n % 512 == 0
    ensures var rq' := Update(rq, error, n).0;
            && rq'.bios != [] && rq'.bios[0].sector == rq.sector + n / 512
            && (rq'.sector == rq'.bios[0].sector <==> n < TWO_31)
            && (Placed(rq') <==> n < TWO_31)
  {
    UpdateMore(rq, error, n);
    UpdatePlaces(rq, error, n);
    ShiftedTotal(n);
    SectorsLeft(rq.dataLen, n);
  }

  lemma {:induction false} SectorsLeft(len: nat, n: nat)
    requires n <= len && n % 512 == 0
    ensures (len - n) / 512 == len / 512 - n / 512
  {
  }

  /** One bio of 2^31 + 512 bytes from sector 2^22 on. */
  function HugeRequest(): Request {
    Request([Bio(0, TWO_31 / 512, TWO_31 + 512, [Bvec(0, 0, TWO_31 + 512)], 0, true)], TWO_31 / 512, TWO_31 + 512,
            false, [], 0, false, false)
  }

  lemma {:induction false} HugeIsOk()
    ensures RequestOk(HugeRequest()) && Placed(HugeRequest()) && Bytes(HugeRequest().bios) == TWO_31 + 512
  {
    var rq := HugeRequest();
    var b := rq.bios[0];
    assert b.Rest() == b.vecs && b.vecs == [] + [b.vecs[0]];
    SizeSnoc([], b.vecs[0]);
    assert rq.bios[1..] == [];
    assert Bytes(rq.bios) == b.size + Bytes([]);
  }

  lemma {:induction false} BackToZero()
    ensures Moved(TWO_31 / 512, TWO_31) == 0
  {
    ShiftedTotal(TWO_31);
  }

  /** After 2^31 bytes the last sector of this request is taken for the first of the device. */
  lemma {:induction false} SectorGoesWrong()
    ensures RequestOk(HugeRequest()) && Placed(HugeRequest())
    ensures var rq := Update(HugeRequest(), 0, TWO_31).0;
            rq.dataLen == 512 && rq.bios != [] && rq.bios[0].sector == TWO_32 / 512 && rq.sector == 0
  {
    HugeIsOk();
    HugeUpdated(HugeRequest());
  }

  lemma {:induction false} HugeUpdated(rq: Request)
    requires RequestOk(rq) && Placed(rq) && !rq.bar && rq.sector == TWO_31 / 512
    requires rq.dataLen == Bytes(rq.bios) == TWO_31 + 512
    ensures var rq' := Update(rq, 0, TWO_31).0;
            rq'.dataLen == 512 && rq'.bios != [] && rq'.bios[0].sector == TWO_32 / 512 && rq'.sector == 0
  {
    UpdateMore(rq, 0, TWO_31);
    SectorIsExact(rq, 0, TWO_31);
    BackToZero();
  }

  // ---------- Two calls and one ----------

  function TrimTail(t: Tail, n: nat, error: int): Tail {
    t.(vecs := DropBytes(t.vecs, n), uptodate := t.uptodate && (n == 0 || error == 0))
  }

  /** Dropping bytes from the front of what is left of a list of bios. */
  function DropTails(ts: seq<Tail>, n: nat, error: int): seq<Tail> {
    if ts == [] then []
    else if n >= Size(ts[0].vecs) then DropTails(ts[1..], n - Size(ts[0].vecs), error)
    else [TrimTail(ts[0], n, error)] + ts[1..]
  }

  function TailVerdict(t: Tail, error: int): Ended {
    Ended(t.id, if error != 0 then error else if t.uptodate then 0 else EIO)
  }

  function EndTails(ts: seq<Tail>, n: nat, error: int): seq<Ended> {
    if ts == [] || n < Size(ts[0].vecs) then []
    else [TailVerdict(ts[0], error)] + EndTails(ts[1..], n - Size(ts[0].vecs), error)
  }

  lemma {:induction false} TailsCons(bios: seq<Bio>)
    requires BiosOk(bios) && bios != []
    ensures Tails(bios)[0] == TailOf(bios[0]) && Tails(bios)[1..] == Tails(bios[1..])
    ensures Size(Tails(bios)[0].vecs) == bios[0].size
  {
  }

  lemma {:induction false} RemainingIsDrop(bios: seq<Bio>, n: nat, error: int)
    requires BiosOk(bios)
    ensures Remaining(bios, n, error) == DropTails(Tails(bios), n, error)
  {
    if bios != [] {
      TailsCons(bios);
      if n >= bios[0].size {
        RemainingIsDrop(bios[1..], n - bios[0].size, error);
      }
    }
  }

  lemma {:induction false} EndedIsEnd(bios: seq<Bio>, n: nat, error: int)
    requires BiosOk(bios)
    ensures EndedWithin(bios, n, error) == EndTails(Tails(bios), n, error)
  {
    if bios != [] {
      TailsCons(bios);
      if n >= bios[0].size {
        EndedIsEnd(bios[1..], n - bios[0].size, error);
      }
    }
  }

  predicate TailsOk(ts: seq<Tail>) {
    forall i :: 0 <= i < |ts| ==> ts[i].vecs != [] && forall k :: 0 <= k < |ts[i].vecs| ==> ts[i].vecs[k].len > 0
  }

  lemma {:induction false} TailAt(bios: seq<Bio>, i: nat)
    requires BiosOk(bios) && i < |bios|
    ensures |Tails(bios)| == |bios| && Tails(bios)[i] == TailOf(bios[i])
    decreases |bios|
  {
    if |bios| > 1 {
      TailAt(bios[1..], if i == 0 then 0 else i - 1);
    }
  }

  lemma {:induction false} TailIsOk(b: Bio)
    requires BioOk(b)
    ensures TailOf(b).vecs != [] && forall k :: 0 <= k < |TailOf(b).vecs| ==> TailOf(b).vecs[k].len > 0
  {
    assert Size([]) == 0;
    PositiveRest(b);
  }

  lemma {:induction false} TailsAreOk(bios: seq<Bio>)
    requires BiosOk(bios)
    ensures TailsOk(Tails(bios)) && |Tails(bios)| == |bios|
    ensures forall i :: 0 <= i < |bios| ==> Tails(bios)[i] == TailOf(bios[i])
  {
    if bios != [] {
      TailAt(bios, 0);
    }
    forall i | 0 <= i < |bios|
      ensures Tails(bios)[i] == TailOf(bios[i])
      ensures Tails(bios)[i].vecs != [] && forall k :: 0 <= k < |Tails(bios)[i].vecs| ==> Tails(bios)[i].vecs[k].len > 0
    {
      TailAt(bios, i);
      TailIsOk(bios[i]);
    }
  }

  lemma {:induction false} TrimTwice(t: Tail, m: nat, n: nat, error: int)
    requires m + n < Size(t.vecs) && forall i :: 0 <= i < |t.vecs| ==> t.vecs[i].len > 0
    ensures TrimTail(TrimTail(t, m, error), n, error) == TrimTail(t, m + n, error)
    ensures Size(TrimTail(t, m, error).vecs) == Size(t.vecs) - m
  {
    DropTwice(t.vecs, m, n);
    DropSize(t.vecs, m);
  }

  lemma {:induction false} DropWhole(ts: seq<Tail>, m: nat, error: int)
    requires ts != [] && m >= Size(ts[0].vecs)
    ensures DropTails(ts, m, error) == DropTails(ts[1..], m - Size(ts[0].vecs), error)
  {
  }

  lemma {:induction false} DropWholeMore(ts: seq<Tail>, m: nat, n: nat, error: int)
    requires ts != [] && m >= Size(ts[0].vecs)
    ensures DropTails(ts, m + n, error) == DropTails(ts[1..], m - Size(ts[0].vecs) + n, error)
  {
    DropWhole(ts, m + n, error);
  }

  /** Dropping m bytes and then n leaves what dropping both at once does. */
  lemma {:induction false} DropTailsTwice(ts: seq<Tail>, m: nat, n: nat, error: int)
    requires TailsOk(ts)
    ensures DropTails(DropTails(ts, m, error), n, error) == DropTails(ts, m + n, error)
  {
    if ts != [] {
      var size := Size(ts[0].vecs);
      if m >= size {
        DropWhole(ts, m, error);
        DropWholeMore(ts, m, n, error);
        DropTailsTwice(ts[1..], m - size, n, error);
      } else {
        FrontTwice(ts, m, n, error);
      }
    }
  }

  /** Dropping m bytes and then n ends the bios that dropping both at once does. */
  lemma {:induction false} EndTailsTwice(ts: seq<Tail>, m: nat, n: nat, error: int)
    requires TailsOk(ts)
    ensures EndTails(ts, m, error) + EndTails(DropTails(ts, m, error), n, error) == EndTails(ts, m + n, error)
  {
    if ts != [] {
      var size := Size(ts[0].vecs);
      if m >= size {
        EndTailsTwice(ts[1..], m - size, n, error);
      } else {
        TrimTwice(ts[0], m, 0, error);
        DropFront(ts, m, error);
      }
    }
  }

  lemma {:induction false} DropFront(ts: seq<Tail>, m: nat, error: int)
    requires ts != [] && m < Size(ts[0].vecs)
    ensures var us := DropTails(ts, m, error); us != [] && us[0] == TrimTail(ts[0], m, error) && us[1..] == ts[1..]
  {
  }

  lemma {:induction false} FrontTwice(ts: seq<Tail>, m: nat, n: nat, error: int)
    requires TailsOk(ts) && ts != [] && m < Size(ts[0].vecs)
    ensures DropTails(DropTails(ts, m, error), n, error) == DropTails(ts, m + n, error)
  {
    DropFront(ts, m, error);
    if m + n < Size(ts[0].vecs) {
      TrimTwice(ts[0], m, n, error);
    } else {
      TrimTwice(ts[0], m, 0, error);
    }
  }

  /**
   Completing m bytes and then n is completing m + n: the same remainder, and the same bios ended.
   The sector is the same unless only the sum does not fit the signed total.
   */
  lemma {:induction false} TwoCallsAreOne(rq: Request, error: int, m: nat, n: nat)
    requires RequestOk(rq) && !rq.bar && m % 512 == 0 && n % 512 == 0 && m < Bytes(rq.bios)
    ensures var (two, more) := Update(Update(rq, error, m).0, error, n);
            var (one, more') := Update(rq, error, m + n);
            && BiosOk(two.bios) && BiosOk(one.bios) && Tails(two.bios) == Tails(one.bios)
            && more == more' && two.dataLen == one.dataLen && two.ended == one.ended
            && (more && rq.sector < TWO_64 ==>
                  (two.sector == one.sector <==> m + n < TWO_31 || m >= TWO_31 || n >= TWO_31))
  {
    var (rq1, more1) := Update(rq, error, m);
    var (two, more) := Update(rq1, error, n);
    var (one, more') := Update(rq, error, m + n);
    UpdateTails(rq, error, m);
    UpdateTails(rq1, error, n);
    UpdateTails(rq, error, m + n);
    TwoRests(rq, rq1, two, one, error, m, n);
    TwoAnswers(rq, rq1, two, one, more, more', m, n);
  }

  /** What one call does to length and sector, and what it answers. */
  predicate Answered(rq: Request, rq': Request, more: bool, n: nat) {
    && (more <==> n < Bytes(rq.bios))
    && rq'.dataLen == (if n < rq.dataLen then rq.dataLen - n else 0)
    && (more ==> rq'.sector == Moved(rq.sector, n))
  }

  lemma {:induction false} TwoAnswers(rq: Request, rq1: Request, two: Request, one: Request, more: bool, more': bool,
                                      m: nat, n: nat)
    requires RequestOk(rq) && RequestOk(rq1) && m % 512 == 0 && n % 512 == 0 && m < Bytes(rq.bios)
    requires Answered(rq, rq1, true, m) && Answered(rq1, two, more, n) && Answered(rq, one, more', m + n)
    ensures more == more' && two.dataLen == one.dataLen
    ensures more && rq.sector < TWO_64 ==>
              (two.sector == one.sector <==> m + n < TWO_31 || m >= TWO_31 || n >= TWO_31)
  {
    TwoSectors(rq, rq1.sector, m, n);
  }

  lemma {:induction false} TwoRests(rq: Request, rq1: Request, two: Request, one: Request, error: int, m: nat, n: nat)
    requires RequestOk(rq) && RequestOk(rq1) && RequestOk(two) && RequestOk(one)
    requires LeftBy(rq, rq1, error, m) && LeftBy(rq1, two, error, n) && LeftBy(rq, one, error, m + n)
    ensures Tails(two.bios) == Tails(one.bios) && two.ended == one.ended
  {
    var ts := Tails(rq.bios);
    TailsAreOk(rq.bios);
    DropTailsTwice(ts, m, n, error);
    EndTailsTwice(ts, m, n, error);
    Joined(rq.ended, EndTails(ts, m, error), EndTails(Tails(rq1.bios), n, error));
  }

  lemma {:induction false} TwoSectors(rq: Request, sector: nat, m: nat, n: nat)
    requires RequestOk(rq) && m % 512 == 0 && n % 512 == 0 && sector == Moved(rq.sector, m)
    ensures m + n < Bytes(rq.bios) && rq.sector < TWO_64 ==>
              (Moved(sector, n) == Moved(rq.sector, m + n) <==> m + n < TWO_31 || m >= TWO_31 || n >= TWO_31)
  {
    if m + n < Bytes(rq.bios) && rq.sector < TWO_64 {
      MovedTwice(rq.sector, m, n);
    }
  }

  lemma {:induction false} MovedTwice(sector: nat, m: nat, n: nat)
    requires m % 512 == 0 && n % 512 == 0 && m + n < TWO_32 && sector < TWO_64
    ensures Moved(Moved(sector, m), n) == Moved(sector, m + n) <==> m + n < TWO_31 || m >= TWO_31 || n >= TWO_31
  {
    ShiftedTotal(m);
    ShiftedTotal(n);
    ShiftedTotal(m + n);
    SectorsLeft(m + n, n);
    WholeSub(m + n, n);
  }

  lemma {:induction false} Joined<T>(a: seq<T>, b: seq<T>, c: seq<T>)
    ensures (a + b) + c == a + (b + c)
  {
  }

  /** What n bytes leave of the bios, and which bios they end. */
  predicate LeftBy(rq: Request, rq': Request, error: int, n: nat)
    requires BiosOk(rq.bios) && BiosOk(rq'.bios)
  {
    && Tails(rq'.bios) == DropTails(Tails(rq.bios), n, error)
    && rq'.ended == rq.ended + EndTails(Tails(rq.bios), n, error)
  }

  /** One call in terms of what is left of the bios. */
  lemma {:induction false} UpdateTails(rq: Request, error: int, n: nat)
    requires RequestOk(rq) && !rq.bar && n % 512 == 0
    ensures var (rq', more) := Update(rq, error, n);
            RequestOk(rq') && !rq'.bar && LeftBy(rq, rq', error, n) && Answered(rq, rq', more, n)
  {
    RemainingIsDrop(rq.bios, n, error);
    EndedIsEnd(rq.bios, n, error);
    if n < Bytes(rq.bios) {
      UpdateMore(rq, error, n);
    } else {
      UpdateDone(rq, error, n);
      RemainingNone(rq.bios, n, error);
    }
  }

  // ---------- Every way of splitting the length ----------

  // One call: a number of bytes and an error.
  datatype Cut = Cut(bytes: nat, error: int)

  function Sum(cuts: seq<Cut>): nat {
    if cuts == [] then 0 else cuts[0].bytes + Sum(cuts[1..])
  }

  /** The request after a sequence of calls, and what they returned. */
  function Calls(rq: Request, cuts: seq<Cut>): (Request, seq<bool>)
    decreases |cuts|
  {
    if cuts == [] then (rq, [])
    else
      var (rq1, more) := Update(rq, cuts[0].error, cuts[0].bytes);
      var (last, mores) := Calls(rq1, cuts[1..]);
      (last, [more] + mores)
  }

  function BioIds(bios: seq<Bio>): seq<nat> {
    if bios == [] then [] else [bios[0].id] + BioIds(bios[1..])
  }

  function EndedIds(es: seq<Ended>): seq<nat> {
    if es == [] then [] else [es[0].id] + EndedIds(es[1..])
  }

  lemma {:induction false} EndedIdsAppend(es: seq<Ended>, fs: seq<Ended>)
    ensures EndedIds(es + fs) == EndedIds(es) + EndedIds(fs)
  {
    if es == [] {
      assert es + fs == fs;
    } else {
      assert (es + fs)[1..] == es[1..] + fs;
      EndedIdsAppend(es[1..], fs);
    }
  }

  function TailIds(ts: seq<Tail>): seq<nat> {
    if ts == [] then [] else [ts[0].id] + TailIds(ts[1..])
  }

  lemma {:induction false} TailIdsAreBioIds(bios: seq<Bio>)
    requires BiosOk(bios)
    ensures TailIds(Tails(bios)) == BioIds(bios)
  {
    if bios != [] {
      TailIdsAreBioIds(bios[1..]);
      assert Tails(bios)[1..] == Tails(bios[1..]);
    }
  }

  lemma {:induction false} IdsSplit(ts: seq<Tail>, n: nat, error: int)
    ensures EndedIds(EndTails(ts, n, error)) + TailIds(DropTails(ts, n, error)) == TailIds(ts)
  {
    if ts != [] {
      if n >= Size(ts[0].vecs) {
        IdsSplit(ts[1..], n - Size(ts[0].vecs), error);
        assert EndTails(ts, n, error)[1..] == EndTails(ts[1..], n - Size(ts[0].vecs), error);
      } else {
        assert DropTails(ts, n, error)[1..] == ts[1..];
      }
    }
  }

  /** The bios ended so far and the bios left are the bios of the request, in order. */
  lemma {:induction false} UpdateIds(rq: Request, error: int, n: nat)
    requires RequestOk(rq) && !rq.bar && n % 512 == 0
    ensures var rq' := Update(rq, error, n).0;
            EndedIds(rq'.ended) + BioIds(rq'.bios) == EndedIds(rq.ended) + BioIds(rq.bios)
  {
    var rq' := Update(rq, error, n).0;
    UpdateTails(rq, error, n);
    IdsSplit(Tails(rq.bios), n, error);
    TailIdsAreBioIds(rq.bios);
    TailIdsAreBioIds(rq'.bios);
    EndedIdsAppend(rq.ended, EndTails(Tails(rq.bios), n, error));
  }

  /** Every call but the last returns true, every bio is ended once and in order, nothing is left. */
  lemma {:induction false} SplitCompletes(rq: Request, cuts: seq<Cut>)
    requires RequestOk(rq) && !rq.bar && rq.bios != []
    requires Sum(cuts) == rq.dataLen && forall i :: 0 <= i < |cuts| ==> cuts[i].bytes > 0 && cuts[i].bytes % 512 == 0
    ensures var (last, mores) := Calls(rq, cuts);
            && |mores| == |cuts| > 0
            && (forall i :: 0 <= i < |cuts| ==> (mores[i] <==> i < |cuts| - 1))
            && last.bios == [] && last.dataLen == 0 && !last.overrun && !last.botched
            && EndedIds(last.ended) == EndedIds(rq.ended) + BioIds(rq.bios)
    decreases |cuts|
  {
    assert cuts == [] ==> Sum(cuts) == 0;
    var (rq1, more) := Update(rq, cuts[0].error, cuts[0].bytes);
    UpdateTails(rq, cuts[0].error, cuts[0].bytes);
    UpdateIds(rq, cuts[0].error, cuts[0].bytes);
    TailsAreOk(rq1.bios);
    TailsAreOk(rq.bios);
    if more {
      SplitCompletes(rq1, cuts[1..]);
    } else {
      SumPositive(cuts[1..]);
      assert cuts[1..] == [];
      UpdateDone(rq, cuts[0].error, cuts[0].bytes);
    }
  }

  lemma {:induction false} SumPositive(cuts: seq<Cut>)
    requires forall i :: 0 <= i < |cuts| ==> cuts[i].bytes > 0
    ensures Sum(cuts) == 0 <==> cuts == []
  {
  }

  // ---------- The request of a barrier in progress ----------

  /** The loop of bar_rq takes no more bytes from the list than it was given. */
  lemma {:induction false} BarLoopBytes(w: Walk, error: int)
    ensures Bytes(Loop(w, true, error).bios) + w.left >= Bytes(w.bios)
    decreases |w.bios|, VectorsLeft(w)
  {
    if w.bios != [] {
      if w.left >= w.bios[0].size {
        BarLoopBytes(PassBio(w, true, error), error);
      } else {
        var b, i := w.bios[0], w.bios[0].idx + w.nextIdx;
        if i < |b.vecs| && b.vecs[i].len <= w.left {
          BarLoopBytes(TakeVector(w), error);
        }
      }
    }
  }

  /** The bios of bar_rq keep their sizes, so a call takes only whole bios from its list. */
  lemma {:induction false} BarCallBytes(rq: Request, error: int, n: nat)
    requires rq.bar && n < Bytes(rq.bios)
    ensures var (rq', more) := Update(rq, error, n);
            more && rq'.bar && rq'.bios != [] && Bytes(rq'.bios) + n >= Bytes(rq.bios) && rq'.ended == rq.ended
  {
    var start := Walk(rq.bios, n, 0, 0, 0, rq.ended, rq.orderr, rq.overrun);
    var w := Loop(start, true, error);
    BarLoopBytes(start, error);
    BarEndsNone(start, error);
    assert w.bios == [] ==> Bytes(w.bios) == 0;
    var b := FirstLeft(w, true, error);
    assert b.size == w.bios[0].size && ([b] + w.bios[1..])[1..] == w.bios[1..];
  }

  lemma {:induction false} BarEndsNone(w: Walk, error: int)
    ensures Loop(w, true, error).ended == w.ended
    decreases |w.bios|, VectorsLeft(w)
  {
    if w.bios != [] {
      if w.left >= w.bios[0].size {
        BarEndsNone(PassBio(w, true, error), error);
      } else {
        var b, i := w.bios[0], w.bios[0].idx + w.nextIdx;
        if i < |b.vecs| && b.vecs[i].len <= w.left {
          BarEndsNone(TakeVector(w), error);
        }
      }
    }
  }

  /** Calls for fewer bytes than the bios have never finish them. */
  lemma {:induction false} BarNeverDone(rq: Request, cuts: seq<Cut>)
    requires rq.bar && Sum(cuts) < Bytes(rq.bios)
    ensures var (last, mores) := Calls(rq, cuts);
            && last.bios != [] && last.ended == rq.ended
            && |mores| == |cuts| && forall i :: 0 <= i < |cuts| ==> mores[i]
    decreases |cuts|
  {
    if cuts == [] {
      assert Bytes([]) == 0;
    } else {
      BarCallBytes(rq, cuts[0].error, cuts[0].bytes);
      BarNeverDone(Update(rq, cuts[0].error, cuts[0].bytes).0, cuts[1..]);
    }
  }

  /** The loop of bar_rq goes as far as that of any request, and records the error. */
  lemma {:induction false} BarLoop(w: Walk, error: int)
    requires BiosOk(w.bios) && w.nextIdx == 0 && w.bioBytes == 0
    ensures var r := Loop(w, true, error);
            && r.bios == Unfinished(w.bios, w.left) && r.overrun == w.overrun
            && (r.bios != [] ==> r.bioBytes == Into(w.bios, w.left) && r.total == w.total + w.left)
            && r.orderr == (if w.bios != [] && w.left >= w.bios[0].size then Record(w.orderr, error) else w.orderr)
    decreases |w.bios|
  {
    if w.bios == [] {
    } else if w.left >= w.bios[0].size {
      BarLoop(PassBio(w, true, error), error);
      assert w.bios[1..] != [] ==> w.bios[1..][0].size > 0;
    } else {
      assert w.bios[0].vecs[w.bios[0].idx..w.bios[0].idx] == [];
      LoopInBio(w, true, error);
    }
  }

  /** The bytes end at the end of a bio. */
  predicate AtBoundary(bios: seq<Bio>, n: nat) {
    Into(bios, n) == 0
  }

  /** Every call but the last stops at the end of a bio. */
  predicate AtBoundaries(bios: seq<Bio>, cuts: seq<Cut>) {
    forall k :: 0 < k < |cuts| ==> AtBoundary(bios, Sum(cuts[..k]))
  }

  /** The first error of a number of calls. */
  function RecordAll(orderr: int, cuts: seq<Cut>): int
    decreases |cuts|
  {
    if cuts == [] then orderr else RecordAll(Record(orderr, cuts[0].error), cuts[1..])
  }

  lemma {:induction false} BoundaryLeft(bios: seq<Bio>, n: nat, m: nat)
    requires BiosOk(bios) && n < Bytes(bios) && AtBoundary(bios, n)
    ensures AtBoundary(bios, n + m) <==> AtBoundary(Unfinished(bios, n), m)
  {
    if n >= bios[0].size {
      var n' := n - bios[0].size;
      BoundaryLeft(bios[1..], n', m);
      assert n + m - bios[0].size == n' + m;
    }
  }

  lemma {:induction false} BoundariesLeft(bios: seq<Bio>, cuts: seq<Cut>)
    requires BiosOk(bios) && |cuts| > 1 && cuts[0].bytes < Bytes(bios)
    ensures AtBoundaries(bios, cuts) <==>
            AtBoundary(bios, cuts[0].bytes) && AtBoundaries(Unfinished(bios, cuts[0].bytes), cuts[1..])
  {
    var n := cuts[0].bytes;
    assert cuts[..1] == [cuts[0]] && Sum([cuts[0]]) == n + Sum([]) by {
      assert [cuts[0]][1..] == [];
    }
    if AtBoundary(bios, n) {
      forall k | 0 < k < |cuts| - 1
        ensures AtBoundary(bios, Sum(cuts[..k + 1])) <==> AtBoundary(Unfinished(bios, n), Sum(cuts[1..][..k]))
      {
        assert cuts[..k + 1][1..] == cuts[1..][..k];
        BoundaryLeft(bios, n, Sum(cuts[1..][..k]));
      }
      if AtBoundaries(Unfinished(bios, n), cuts[1..]) {
        forall k | 0 < k < |cuts|
          ensures AtBoundary(bios, Sum(cuts[..k]))
        {
          assert k > 1 ==> AtBoundary(Unfinished(bios, n), Sum(cuts[1..][..k - 1]));
        }
      }
    }
  }

  /** A call that stops between bios leaves the rest of the request in order. */
  lemma {:induction false} BarCallAtBoundary(rq: Request, error: int, n: nat)
    requires RequestOk(rq) && rq.bar && 0 < n < Bytes(rq.bios) && AtBoundary(rq.bios, n)
    ensures var (rq', more) := Update(rq, error, n);
            && more && RequestOk(rq') && rq'.bar && rq'.bios == Unfinished(rq.bios, n)
            && rq'.dataLen == rq.dataLen - n && rq'.orderr == Record(rq.orderr, error) && rq'.ended == rq.ended
  {
    var start := Walk(rq.bios, n, 0, 0, 0, rq.ended, rq.orderr, rq.overrun);
    var w := Loop(start, true, error);
    BarLoop(start, error);
    BarCallBytes(rq, error, n);
    UnfinishedOk(rq.bios, n);
    CurFits(w.bios[0]);
    LeaveWhole(rq, w, error);
    assert rq.bios[0].size <= n;
  }

  lemma {:induction false} LeaveWhole(rq: Request, w: Walk, error: int)
    requires w.bios != [] && w.bioBytes == 0 && w.total <= rq.dataLen < TWO_32
    requires w.bios[0].Cur() <= rq.dataLen - w.total
    ensures Leave(rq, w, error)
         == Request(w.bios, Moved(rq.sector, w.total), rq.dataLen - w.total, rq.bar,
                    w.ended, w.orderr, w.overrun, rq.botched)
  {
    assert [w.bios[0]] + w.bios[1..] == w.bios;
  }

  /** The sector of bar_rq moves by the bytes of a call exactly if they are fewer than 2^31. */
  lemma {:induction false} BarSectorIsExact(rq: Request, error: int, n: nat)
    requires RequestOk(rq) && Placed(rq) && rq.bar && n < Bytes(rq.bios) && n % 512 == 0
    ensures Update(rq, error, n).0.sector == rq.sector + n / 512 <==> n < TWO_31
  {
    BarLoop(Walk(rq.bios, n, 0, 0, 0, rq.ended, rq.orderr, rq.overrun), error);
    UnfinishedOk(rq.bios, n);
    ShiftedTotal(n);
    SectorsLeft(rq.dataLen, n);
  }

  /** A call for all the bytes finishes the request. */
  lemma {:induction false} BarCallDone(rq: Request, error: int, n: nat)
    requires RequestOk(rq) && rq.bar && rq.bios != [] && n == Bytes(rq.bios)
    ensures var (rq', more) := Update(rq, error, n);
            && !more && rq'.bios == [] && rq'.dataLen == 0 && !rq'.overrun && !rq'.botched
            && rq'.orderr == Record(rq.orderr, error) && rq'.ended == rq.ended
  {
    var start := Walk(rq.bios, n, 0, 0, 0, rq.ended, rq.orderr, rq.overrun);
    BarLoop(start, error);
    BarEndsNone(start, error);
    UnfinishedOk(rq.bios, n);
  }

  lemma {:induction false} BarAtBoundaries(rq: Request, cuts: seq<Cut>)
    requires RequestOk(rq) && rq.bar && rq.bios != [] && Sum(cuts) == rq.dataLen
    requires forall i :: 0 <= i < |cuts| ==> cuts[i].bytes > 0
    requires AtBoundaries(rq.bios, cuts)
    ensures var (last, mores) := Calls(rq, cuts);
            && |mores| == |cuts| > 0 && (forall i :: 0 <= i < |cuts| ==> (mores[i] <==> i < |cuts| - 1))
            && last.bios == [] && last.dataLen == 0 && !last.overrun && !last.botched
            && last.orderr == RecordAll(rq.orderr, cuts) && last.ended == rq.ended
    decreases |cuts|
  {
    assert Bytes(rq.bios) >= rq.bios[0].size > 0;
    assert cuts == [] ==> Sum(cuts) == 0;
    SumPositive(cuts[1..]);
    if |cuts| == 1 {
      assert cuts[1..] == [];
      BarCallDone(rq, cuts[0].error, cuts[0].bytes);
    } else {
      BoundariesLeft(rq.bios, cuts);
      BarCallAtBoundary(rq, cuts[0].error, cuts[0].bytes);
      UnfinishedOk(rq.bios, cuts[0].bytes);
      BarAtBoundaries(Update(rq, cuts[0].error, cuts[0].bytes).0, cuts[1..]);
    }
  }

  /** After a call that stops inside a bio the list has more bytes than the calls still to come. */
  lemma {:induction false} BarInside(rq: Request, error: int, n: nat)
    requires RequestOk(rq) && rq.bar && 0 < n < Bytes(rq.bios) && !AtBoundary(rq.bios, n)
    ensures Bytes(Update(rq, error, n).0.bios) > Bytes(rq.bios) - n
  {
    var start := Walk(rq.bios, n, 0, 0, 0, rq.ended, rq.orderr, rq.overrun);
    var w := Loop(start, true, error);
    BarLoop(start, error);
    UnfinishedOk(rq.bios, n);
    var b := FirstLeft(w, true, error);
    assert b.size == w.bios[0].size && ([b] + w.bios[1..])[1..] == w.bios[1..];
  }

  lemma {:induction false} BarNotAtBoundaries(rq: Request, cuts: seq<Cut>)
    requires RequestOk(rq) && rq.bar && rq.bios != [] && Sum(cuts) == rq.dataLen
    requires forall i :: 0 <= i < |cuts| ==> cuts[i].bytes > 0
    requires !AtBoundaries(rq.bios, cuts)
    ensures var (last, mores) := Calls(rq, cuts);
            && |mores| == |cuts| > 0 && (forall i :: 0 <= i < |cuts| ==> mores[i])
            && last.bios != [] && last.ended == rq.ended
    decreases |cuts|
  {
    SumPositive(cuts[1..]);
    var n := cuts[0].bytes;
    BarCallBytes(rq, cuts[0].error, n);
    var rq1 := Update(rq, cuts[0].error, n).0;
    if AtBoundary(rq.bios, n) {
      BoundariesLeft(rq.bios, cuts);
      BarCallAtBoundary(rq, cuts[0].error, n);
      BarNotAtBoundaries(rq1, cuts[1..]);
    } else {
      BarInside(rq, cuts[0].error, n);
      BarNeverDone(rq1, cuts[1..]);
    }
  }

  /**
   For bar_rq the sizes of the bios stay.  Calls that cover it come to an end exactly if each but the
   last stops at the end of a bio; then nothing is left, and the first error is recorded.
   */
  lemma {:induction false} BarSplitIsExact(rq: Request, cuts: seq<Cut>)
    requires RequestOk(rq) && rq.bar && rq.bios != [] && Sum(cuts) == rq.dataLen
    requires forall i :: 0 <= i < |cuts| ==> cuts[i].bytes > 0
    ensures var (last, mores) := Calls(rq, cuts);
            && |mores| == |cuts| > 0 && (forall i :: 0 <= i < |cuts| - 1 ==> mores[i])
            && (!mores[|cuts| - 1] <==> AtBoundaries(rq.bios, cuts))
            && (last.bios == [] <==> AtBoundaries(rq.bios, cuts))
            && last.ended == rq.ended
            && (AtBoundaries(rq.bios, cuts) ==>
                  last.dataLen == 0 && !last.overrun && !last.botched && last.orderr == RecordAll(rq.orderr, cuts))
  {
    if AtBoundaries(rq.bios, cuts) {
      BarAtBoundaries(rq, cuts);
    } else {
      BarNotAtBoundaries(rq, cuts);
    }
  }

  // ---------- A barrier with one bio ----------

  /** Some bytes of the one bio are done, but its size still says otherwise. */
  predicate Piecewise(rq: Request) {
    && rq.bar && |rq.bios| == 1 && !rq.overrun && !rq.botched
    && rq.bios[0].Indexed() && Size(rq.bios[0].Rest()) == rq.dataLen <= rq.bios[0].size < TWO_32
    && forall i :: rq.bios[0].idx <= i < |rq.bios[0].vecs| ==> rq.bios[0].vecs[i].len > 0
  }

  /** The loop is in the one bio, which has the vectors for all its bytes. */
  predicate InPiece(w: Walk) {
    && w.bios != [] && w.bios[0].idx + w.nextIdx <= |w.bios[0].vecs| && 0 < w.left < w.bios[0].size
    && w.bioBytes == Size(w.bios[0].vecs[w.bios[0].idx..w.bios[0].idx + w.nextIdx])
    && w.bioBytes + w.left <= Size(w.bios[0].vecs[w.bios[0].idx..])
    && forall i :: w.bios[0].idx <= i < |w.bios[0].vecs| ==> w.bios[0].vecs[i].len > 0
  }

  /** The loop has used up the vectors of the first bio. */
  predicate UsedUp(w: Walk) {
    && w.bios != [] && w.bios[0].idx + w.nextIdx == |w.bios[0].vecs| && w.left == 0
    && w.bioBytes == Size(w.bios[0].vecs[w.bios[0].idx..])
  }

  lemma {:induction false} BarWalk(w: Walk, error: int)
    requires InPiece(w)
    ensures var r := Loop(w, true, error);
            && r.bios == w.bios && r.overrun == w.overrun
            && r.total == w.total + w.left && r.bioBytes == w.bioBytes + w.left
            && (StoppedIn(r) || UsedUp(r))
    decreases VectorsLeft(w)
  {
    PieceVector(w);
    if w.bios[0].vecs[w.bios[0].idx + w.nextIdx].len <= w.left {
      PieceTake(w);
      if TakeVector(w).left > 0 {
        BarWalk(TakeVector(w), error);
      }
    }
  }

  lemma {:induction false} PieceVector(w: Walk)
    requires InPiece(w)
    ensures w.bios[0].idx + w.nextIdx < |w.bios[0].vecs|
  {
    var b := w.bios[0];
    assert b.vecs[b.idx..|b.vecs|] == b.vecs[b.idx..];
  }

  lemma {:induction false} PieceTake(w: Walk)
    requires InPiece(w) && w.bios[0].idx + w.nextIdx < |w.bios[0].vecs|
    requires w.bios[0].vecs[w.bios[0].idx + w.nextIdx].len <= w.left
    ensures var w' := TakeVector(w);
            && VectorsLeft(w') < VectorsLeft(w)
            && (if w'.left > 0 then InPiece(w') else StoppedIn(w') || UsedUp(w'))
  {
    var b, i := w.bios[0], w.bios[0].idx + w.nextIdx;
    SizeStep(b.vecs, b.idx, i);
    assert b.idx + TakeVector(w).nextIdx == i + 1;
    assert i + 1 == |b.vecs| ==> b.vecs[b.idx..i + 1] == b.vecs[b.idx..];
  }

  lemma {:induction false} BarFields(w: Walk, error: int)
    requires w.bios != [] && w.bioBytes > 0 && StoppedIn(w)
    ensures var b, i := w.bios[0], w.bios[0].idx + w.nextIdx;
            var v := b.vecs[i].(offset := b.vecs[i].offset + w.left, len := b.vecs[i].len - w.left);
            FirstLeft(w, true, error) == b.(idx := i, vecs := b.vecs[i := v])
  {
  }

  lemma {:induction false} BarFieldsUsedUp(w: Walk, error: int)
    requires w.bioBytes > 0 && UsedUp(w)
    ensures FirstLeft(w, true, error) == w.bios[0].(idx := |w.bios[0].vecs|)
  {
  }

  lemma {:induction false} StoppedShort(w: Walk)
    requires StoppedIn(w) && w.bios[0].Indexed()
    ensures w.bioBytes < Size(w.bios[0].Rest())
  {
    var b, i := w.bios[0], w.bios[0].idx + w.nextIdx;
    SizeStep(b.vecs, b.idx, i);
    assert b.vecs[b.idx..] == b.vecs[b.idx..i + 1] + b.vecs[i + 1..];
    SizeAppend(b.vecs[b.idx..i + 1], b.vecs[i + 1..]);
  }

  /** The vectors from the first on that is not done have the bytes that are left; the size of the bio stays. */
  lemma {:induction false} BarStopped(w: Walk, error: int)
    requires StoppedIn(w) && w.bios[0].Indexed() && w.bioBytes > 0
    requires forall i :: w.bios[0].idx <= i < |w.bios[0].vecs| ==> w.bios[0].vecs[i].len > 0
    ensures LeftOf(w.bios[0], FirstLeft(w, true, error), w.bioBytes)
  {
    var b, i := w.bios[0], w.bios[0].idx + w.nextIdx;
    BarFields(w, error);
    StoppedShort(w);
    VectorsCut(b.vecs, b.idx, i, w.left);
  }

  lemma {:induction false} VectorsCut(vecs: seq<Bvec>, lo: nat, i: nat, left: nat)
    requires lo <= i < |vecs| && left < vecs[i].len && (forall k :: lo <= k < |vecs| ==> vecs[k].len > 0)
    requires Size(vecs[lo..i]) + left < Size(vecs[lo..])
    ensures var cut := vecs[i := vecs[i].(offset := vecs[i].offset + left, len := vecs[i].len - left)];
            && Size(cut[i..]) + Size(vecs[lo..i]) + left == Size(vecs[lo..])
            && forall k :: i <= k < |cut| ==> cut[k].len > 0
  {
    RestDropped(vecs, lo, i, left);
    DropSize(vecs[lo..], Size(vecs[lo..i]) + left);
  }

  predicate LeftOf(b: Bio, b': Bio, n: nat)
    requires b.Indexed()
  {
    && b'.size == b.size && b'.Indexed() && Size(b'.Rest()) + n == Size(b.Rest())
    && forall i :: b'.idx <= i < |b'.vecs| ==> b'.vecs[i].len > 0
  }

  lemma {:induction false} BarUsedUp(w: Walk, error: int)
    requires UsedUp(w) && w.bios[0].Indexed() && w.bioBytes > 0
    ensures LeftOf(w.bios[0], FirstLeft(w, true, error), w.bioBytes)
  {
    BarFieldsUsedUp(w, error);
    assert FirstLeft(w, true, error).Rest() == [];
  }

  lemma {:induction false} PieceKept(rq: Request, error: int, n: nat)
    requires Piecewise(rq) && 0 < n <= rq.dataLen && n < rq.bios[0].size
    ensures var (rq', more) := Update(rq, error, n);
            more && Piecewise(rq') && rq'.dataLen == rq.dataLen - n && rq'.bios[0].size == rq.bios[0].size
  {
    var start := Walk(rq.bios, n, 0, 0, 0, rq.ended, rq.orderr, rq.overrun);
    assert rq.bios[0].vecs[rq.bios[0].idx..rq.bios[0].idx] == [];
    BarWalk(start, error);
    var w := Loop(start, true, error);
    if StoppedIn(w) {
      BarStopped(w, error);
    } else {
      BarUsedUp(w, error);
    }
    PieceLeft(rq, w, error);
  }

  lemma {:induction false} PieceLeft(rq: Request, w: Walk, error: int)
    requires Piecewise(rq) && w.bios == rq.bios && !w.overrun && w.total == w.bioBytes <= rq.dataLen
    requires LeftOf(w.bios[0], FirstLeft(w, true, error), w.bioBytes)
    ensures var rq' := Leave(rq, w, error);
            Piecewise(rq') && rq'.dataLen == rq.dataLen - w.total && rq'.bios[0].size == rq.bios[0].size
  {
    RestCur(FirstLeft(w, true, error));
  }

  lemma {:induction false} RestCur(b: Bio)
    requires b.Indexed()
    ensures b.Cur() <= Size(b.Rest())
  {
    if b.idx < |b.vecs| {
      SizeCons(b.Rest());
    }
  }

  lemma {:induction false} PiecesKept(rq: Request, cuts: seq<Cut>)
    requires Piecewise(rq) && Sum(cuts) == rq.dataLen < rq.bios[0].size
    requires forall i :: 0 <= i < |cuts| ==> cuts[i].bytes > 0
    ensures var (last, mores) := Calls(rq, cuts); Piecewise(last) && last.dataLen == 0
    decreases |cuts|
  {
    if cuts != [] {
      PieceKept(rq, cuts[0].error, cuts[0].bytes);
      PiecesKept(Update(rq, cuts[0].error, cuts[0].bytes).0, cuts[1..]);
    }
  }

  /**
   A barrier carries one bio, so its request comes to an end exactly if one call covers it.  With
   more calls nothing is left and nothing complained about, but the last still asks for more.
   */
  lemma {:induction false} BarrierInOneCall(rq: Request, cuts: seq<Cut>)
    requires RequestOk(rq) && rq.bar && |rq.bios| == 1 && Sum(cuts) == rq.dataLen
    requires forall i :: 0 <= i < |cuts| ==> cuts[i].bytes > 0
    ensures var (last, mores) := Calls(rq, cuts);
            && |mores| == |cuts| > 0 && (!mores[|cuts| - 1] <==> |cuts| == 1)
            && last.dataLen == 0 && !last.overrun && !last.botched && |last.bios| == (if |cuts| == 1 then 0 else 1)
  {
    BarSplitIsExact(rq, cuts);
    assert rq.bios[1..] == [];
    assert Bytes(rq.bios) == rq.bios[0].size + Bytes([]);
    if |cuts| > 1 {
      SumPositive(cuts[1..]);
      assert cuts[..1][1..] == [];
      assert Sum(cuts[..1]) == cuts[0].bytes;
      assert !AtBoundary(rq.bios, Sum(cuts[..1]));
      PieceKept(rq, cuts[0].error, cuts[0].bytes);
      PiecesKept(Update(rq, cuts[0].error, cuts[0].bytes).0, cuts[1..]);
    }
  }

  // ---------- The object ----------

  class IoRequest {
    var bios: seq<Bio>
    var sector: nat
    var dataLen: nat
    const bar: bool
    var ended: seq<Ended>
    var orderr: int
    var overrun: bool
    var botched: bool

    function View(): Request
      reads this
    {
      Request(bios, sector, dataLen, bar, ended, orderr, overrun, botched)
    }

    constructor (rq: Request)
      ensures View() == rq
    {
      bios, sector, dataLen, bar := rq.bios, rq.sector, rq.dataLen, rq.bar;
      ended, orderr, overrun, botched := rq.ended, rq.orderr, rq.overrun, rq.botched;
    }

    /** req_bio_endio for a bio that is done as a whole. */
    method EndBio(b: Bio, error: int)
      modifies `ended, `orderr
      ensures ended == if bar then old(ended) else old(ended) + [Verdict(b, error)]
      ensures orderr == if bar then Record(old(orderr), error) else old(orderr)
    {
      if bar {
        if error != 0 && orderr == 0 {
          orderr := error;
        }
      } else if error != 0 {
        ended := ended + [Ended(b.id, error)];
      } else if b.uptodate {
        ended := ended + [Ended(b.id, 0)];
      } else {
        ended := ended + [Ended(b.id, EIO)];
      }
    }

    /** The loop of blk_update_request. */
    method WalkBios(error: int, bytes: nat) returns (left: nat, total: nat, bioBytes: nat, nextIdx: nat)
      modifies `bios, `ended, `orderr, `overrun
      ensures Walk(bios, left, total, bioBytes, nextIdx, ended, orderr, overrun)
           == Loop(old(Walk(bios, bytes, 0, 0, 0, ended, orderr, overrun)), bar, error)
    {
      left, total, bioBytes, nextIdx := bytes, 0, 0, 0;
      ghost var start := Walk(bios, bytes, 0, 0, 0, ended, orderr, overrun);
      ghost var w := start;
      while bios != []
        invariant w == Walk(bios, left, total, bioBytes, nextIdx, ended, orderr, overrun)
        invariant Loop(w, bar, error) == Loop(start, bar, error)
        decreases |bios|, VectorsLeft(w)
      {
        var b := bios[0];
        if left >= b.size {
          bios := bios[1..];
          EndBio(b, error);
          nextIdx, bioBytes := 0, 0;
          total, left := total + b.size, left - b.size;
          w := PassBio(w, bar, error);
        } else {
          var i := b.idx + nextIdx;
          if i >= |b.vecs| {
            overrun := true;
            return;
          }
          var n := b.vecs[i].len;
          if n > left {
            bioBytes, total := bioBytes + left, total + left;
            return;
          }
          nextIdx, bioBytes := nextIdx + 1, bioBytes + n;
          total, left := total + n, left - n;
          w := TakeVector(w);
        }
        if bios != [] && left == 0 {
          return;
        }
      }
    }

    /** The end of blk_update_request for a request with bios left. */
    method KeepRest(error: int, left: nat, total: nat, bioBytes: nat, nextIdx: nat)
      requires bios != []
      modifies `bios, `orderr, `dataLen, `sector, `botched
      ensures View() == old(Leave(View(), Walk(bios, left, total, bioBytes, nextIdx, ended, orderr, overrun), error))
    {
      var b := bios[0];
      if bioBytes != 0 {
        if bar && error != 0 && orderr == 0 {
          orderr := error;
        }
        b := Shorten(b, bioBytes, nextIdx, left, bar, error);
      }
      bios := [b] + bios[1..];
      dataLen := (dataLen - total) % TWO_32;
      sector := Moved(sector, total);
      if dataLen < b.Cur() {
        botched := true;
        dataLen := b.Cur();
      }
    }

    /** blk_update_request */
    method UpdateRequest(error: int, bytes: nat) returns (more: bool)
      modifies this
      ensures (View(), more) == Update(old(View()), error, bytes)
    {
      if bios == [] {
        return false;
      }
      var left, total, bioBytes, nextIdx := WalkBios(error, bytes);
      if bios == [] {
        dataLen := 0;
        return false;
      }
      KeepRest(error, left, total, bioBytes, nextIdx);
      return true;
    }
  }
}
