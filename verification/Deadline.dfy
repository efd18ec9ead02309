/**
 The deadline scheduler.  Each direction keeps its requests twice, sorted by sector and in the
 order of their deadlines; batches follow the sector order, and writes wait only so long.
 */
module Deadline {
  import opened Wrappers

  // A request in the tree, and a request on the fifo list with the time it expires.
  datatype Entry = Entry(id: nat, pos: nat)
  datatype Timed = Timed(id: nat, expires: int)

  // One direction: the tree as the sequence of its entries in order, the fifo list, next_rq.
  datatype Side = Side(sort: seq<Entry>, fifo: seq<Timed>, next: Option<nat>)

  // The tunables, fixed while the scheduler runs.
  datatype Settings = Settings(readExpire: int, writeExpire: int, fifoBatch: nat, writesStarved: nat)

  // deadline_data, the count of sorted requests, the tail of the dispatch queue, and for the
  // statements the requests added and merged away and the time of the last event.
  datatype Data = Data(readSide: Side, writeSide: Side, batching: nat, starved: nat, nrSorted: int,
                       dispatched: seq<nat>, added: seq<nat>, merged: seq<nat>, now: int)

  function Of(d: Data, write: bool): Side {
    if write then d.writeSide else d.readSide
  }

  function With(d: Data, write: bool, s: Side): Data {
    if write then d.(writeSide := s) else d.(readSide := s)
  }

  // ---------- The sorted list ----------

  /** The position of a request in the tree, or its size if it is not there. */
  function IndexOf(s: seq<Entry>, id: nat): (i: nat)
    ensures i <= |s| && (i < |s| ==> s[i].id == id) && forall k :: 0 <= k < i ==> s[k].id != id
  {
    if s == [] || s[0].id == id then 0 else 1 + IndexOf(s[1..], id)
  }

  function FifoIndex(s: seq<Timed>, id: nat): (i: nat)
    ensures i <= |s| && (i < |s| ==> s[i].id == id) && forall k :: 0 <= k < i ==> s[k].id != id
  {
    if s == [] || s[0].id == id then 0 else 1 + FifoIndex(s[1..], id)
  }

  function Drop<T>(s: seq<T>, i: nat): seq<T> {
    if i < |s| then Remove(s, i) else s
  }

  /** rb_next: the request after this one. */
  function Latter(s: seq<Entry>, id: nat): Option<nat> {
    var i := IndexOf(s, id);
    if i + 1 < |s| then Some(s[i + 1].id) else None
  }

  /** Where elv_rb_add goes down to: before the first entry that does not lie below. */
  function Slot(s: seq<Entry>, pos: nat): (i: nat)
    ensures i <= |s| && (forall k :: 0 <= k < i ==> s[k].pos < pos) && (i < |s| ==> s[i].pos >= pos)
  {
    if s == [] || s[0].pos >= pos then 0 else 1 + Slot(s[1..], pos)
  }

  /** The request at the same sector, which elv_rb_add returns instead of adding. */
  function Alias(s: seq<Entry>, pos: nat): Option<nat> {
    var i := Slot(s, pos);
    if i < |s| && s[i].pos == pos then Some(s[i].id) else None
  }

  function Insert(s: seq<Entry>, e: Entry): seq<Entry> {
    var i := Slot(s, e.pos);
    s[..i] + [e] + s[i..]
  }

  // ---------- The operations ----------

  /** deadline_remove_request and deadline_del_rq_rb */
  function Removed(s: Side, id: nat): Side {
    Side(Drop(s.sort, IndexOf(s.sort, id)), Drop(s.fifo, FifoIndex(s.fifo, id)),
         if s.next == Some(id) then Latter(s.sort, id) else s.next)
  }

  /** deadline_move_request and elv_dispatch_add_tail */
  function Move(d: Data, write: bool, id: nat): Data {
    var d1 := d.(readSide := d.readSide.(next := None), writeSide := d.writeSide.(next := None));
    var s := Of(d1, write).(next := Latter(Of(d, write).sort, id));
    With(d1, write, Removed(s, id)).(dispatched := d.dispatched + [id], nrSorted := d.nrSorted - 1)
  }

  /** The loop of deadline_add_rq_rb: a request at the same sector is dispatched to make room. */
  function MakeRoom(d: Data, write: bool, pos: nat): Data {
    var alias := Alias(Of(d, write).sort, pos);
    if alias.Some? then Move(d, write, alias.value) else d
  }

  function WithEntry(d: Data, write: bool, e: Entry): Data {
    With(d, write, Of(d, write).(sort := Insert(Of(d, write).sort, e)))
  }

  /** deadline_add_rq_rb */
  function AddRb(d: Data, write: bool, e: Entry): Data {
    WithEntry(MakeRoom(d, write, e.pos), write, e)
  }

  function Expire(c: Settings, write: bool): int {
    if write then c.writeExpire else c.readExpire
  }

  function WithTail(d: Data, write: bool, x: Timed): Data {
    With(d, write, Of(d, write).(fifo := Of(d, write).fifo + [x]))
  }

  /** The request goes into the tree and to the end of the fifo list. */
  function Enter(d: Data, write: bool, e: Entry, x: Timed, now: int): Data {
    WithTail(WithEntry(d, write, e), write, x).(added := d.added + [e.id], now := now)
  }

  /** elv_insert and deadline_add_request */
  function Add(c: Settings, d: Data, write: bool, id: nat, pos: nat, now: int): Data {
    Enter(MakeRoom(d.(nrSorted := d.nrSorted + 1), write, pos), write, Entry(id, pos),
          Timed(id, now + Expire(c, write)), now)
  }

  /** deadline_merged_request after a front merge: the request has a new first sector. */
  function FrontMerged(d: Data, write: bool, id: nat, pos: nat): Data {
    var s := Of(d, write);
    AddRb(With(d, write, s.(sort := Drop(s.sort, IndexOf(s.sort, id)))), write, Entry(id, pos))
  }

  /** The fifo part of deadline_merged_requests: rq takes the place and time of next if that is sooner. */
  function Hasten(f: seq<Timed>, rq: nat, next: nat): seq<Timed> {
    var i, j := FifoIndex(f, rq), FifoIndex(f, next);
    if i < |f| && j < |f| && i != j && f[j].expires < f[i].expires then
      var g := Drop(f, i);
      var k := FifoIndex(g, next);
      if k < |g| then g[..k + 1] + [Timed(rq, f[j].expires)] + g[k + 1..] else g
    else f
  }

  /** deadline_merged_requests and elv_merge_requests: next is merged into rq. */
  function MergedRequests(d: Data, write: bool, rq: nat, next: nat): Data {
    var s := Of(d, write);
    With(d, write, Removed(s.(fifo := Hasten(s.fifo, rq, next)), next)).
    (nrSorted := d.nrSorted - 1, merged := d.merged + [next])
  }

  /** deadline_check_fifo */
  predicate HeadExpired(s: Side, now: int)
    requires s.fifo != []
  {
    now > s.fifo[0].expires
  }

  /** The request that starts a batch in this direction. */
  function BatchStart(s: Side, now: int): nat
    requires s.fifo != []
  {
    if HeadExpired(s, now) || s.next.None? then s.fifo[0].id else s.next.value
  }

  /** The request a batch goes on with. */
  function BatchNext(d: Data): Option<nat> {
    if d.writeSide.next.Some? then d.writeSide.next else d.readSide.next
  }

  function StartBatch(d: Data, write: bool, now: int): Data
    requires Of(d, write).fifo != []
  {
    Move(d.(batching := 1), write, BatchStart(Of(d, write), now))
  }

  // What one call of the dispatch function did.
  datatype Served = Nothing | Read | Write

  /** deadline_dispatch_requests */
  function Dispatch(c: Settings, d: Data, now: int): (Data, Served) {
    var rq := BatchNext(d);
    var d0 := d.(now := now);
    if rq.Some? && d.batching < c.fifoBatch then
      (Move(d0.(batching := d.batching + 1), d.writeSide.next.Some?, rq.value),
       if d.writeSide.next.Some? then Write else Read)
    else if d.readSide.fifo != [] then
      if d.writeSide.fifo != [] && d.starved >= c.writesStarved then (StartBatch(d0.(starved := 0), true, now), Write)
      else (StartBatch(if d.writeSide.fifo != [] then d0.(starved := d.starved + 1) else d0, false, now), Read)
    else if d.writeSide.fifo != [] then (StartBatch(d0.(starved := 0), true, now), Write)
    else (d0, Nothing)
  }

  // ---------- What every event keeps ----------

  function Ids(s: seq<Entry>): seq<nat> {
    seq(|s|, i requires 0 <= i < |s| => s[i].id)
  }

  function FifoIds(s: seq<Timed>): seq<nat> {
    seq(|s|, i requires 0 <= i < |s| => s[i].id)
  }

  /**
   Both indexes of a direction hold the same requests, but for some that are out of the tree while
   they are put in at another place; the tree is in order without equal keys.
   */
  predicate SideOk(s: Side, out: multiset<nat>) {
    && multiset(Ids(s.sort)) + out == multiset(FifoIds(s.fifo))
    && (forall i, j :: 0 <= i < j < |s.sort| ==> s.sort[i].pos < s.sort[j].pos)
    && (forall i, j :: 0 <= i < j < |s.sort| ==> s.sort[i].id != s.sort[j].id)
    && (s.next.Some? ==> s.next.value in Ids(s.sort) || s.next.value in out)
  }

  /** Everything that was put into the scheduler: held, on its way, dispatched or merged away. */
  function Everything(d: Data, out: multiset<nat>): multiset<nat> {
    multiset(Ids(d.readSide.sort)) + multiset(Ids(d.writeSide.sort)) + out + multiset(d.dispatched) + multiset(d.merged)
  }

  /** The invariant while the requests in out are out of the tree of one direction. */
  predicate MidInv(d: Data, write: bool, out: multiset<nat>) {
    && SideOk(Of(d, write), out) && SideOk(Of(d, !write), multiset{})
    && !(d.readSide.next.Some? && d.writeSide.next.Some?)
    && Distinct(d.added) && Everything(d, out) == multiset(d.added)
  }

  /** Each direction's two indexes agree, at most one next_rq is set, every request is in one place. */
  predicate Inv(d: Data) {
    && MidInv(d, false, multiset{})
    && d.nrSorted == |d.readSide.sort| + |d.writeSide.sort|
  }

  /** The fifo list is in the order of expiry. */
  predicate InOrder(f: seq<Timed>) {
    forall i, j :: 0 <= i < j < |f| ==> f[i].expires <= f[j].expires
  }

  /** No request on the list expires later than one added now would. */
  predicate NotLater(f: seq<Timed>, t: int) {
    forall i :: 0 <= i < |f| ==> f[i].expires <= t
  }

  predicate FifoOk(c: Settings, d: Data) {
    && InOrder(d.readSide.fifo) && NotLater(d.readSide.fifo, d.now + c.readExpire)
    && InOrder(d.writeSide.fifo) && NotLater(d.writeSide.fifo, d.now + c.writeExpire)
  }

  // ---------- Lists ----------

  lemma {:induction false} IdsDrop(s: seq<Entry>, i: nat)
    requires i < |s|
    ensures multiset(Ids(Drop(s, i))) + multiset{s[i].id} == multiset(Ids(s))
  {
    assert s == s[..i] + [s[i]] + s[i + 1..];
    assert Ids(s) == Ids(s[..i]) + [s[i].id] + Ids(s[i + 1..]);
    assert Ids(Drop(s, i)) == Ids(s[..i]) + Ids(s[i + 1..]);
  }

  lemma {:induction false} FifoIdsDrop(s: seq<Timed>, i: nat)
    requires i < |s|
    ensures multiset(FifoIds(Drop(s, i))) + multiset{s[i].id} == multiset(FifoIds(s))
  {
    assert s == s[..i] + [s[i]] + s[i + 1..];
    assert FifoIds(s) == FifoIds(s[..i]) + [s[i].id] + FifoIds(s[i + 1..]);
    assert FifoIds(Drop(s, i)) == FifoIds(s[..i]) + FifoIds(s[i + 1..]);
  }

  lemma {:induction false} InIds(s: seq<Entry>, id: nat)
    ensures id in Ids(s) <==> IndexOf(s, id) < |s|
    ensures id in Ids(s) <==> id in multiset(Ids(s))
  {
    if id in Ids(s) {
      var i :| 0 <= i < |s| && Ids(s)[i] == id;
      assert s[i].id == id;
    }
    if IndexOf(s, id) < |s| {
      assert Ids(s)[IndexOf(s, id)] == id;
    }
  }

  lemma {:induction false} InFifo(s: seq<Timed>, id: nat)
    ensures id in multiset(FifoIds(s)) <==> FifoIndex(s, id) < |s|
  {
    if id in FifoIds(s) {
      var i :| 0 <= i < |s| && FifoIds(s)[i] == id;
      assert s[i].id == id;
    }
    if FifoIndex(s, id) < |s| {
      assert FifoIds(s)[FifoIndex(s, id)] == id;
    }
  }

  lemma {:induction false} DropMembers(s: seq<Entry>, i: nat, id: nat)
    requires i < |s| && id in Ids(s) && id != s[i].id
    ensures id in Ids(Drop(s, i))
  {
    IdsDrop(s, i);
    assert id in multiset(Ids(s));
    assert id in multiset(Ids(Drop(s, i)));
  }

  lemma {:induction false} DropSorted(s: seq<Entry>, i: nat)
    requires i < |s| && forall j, k :: 0 <= j < k < |s| ==> s[j].pos < s[k].pos
    requires forall j, k :: 0 <= j < k < |s| ==> s[j].id != s[k].id
    ensures forall j, k :: 0 <= j < k < |Drop(s, i)| ==> Drop(s, i)[j].pos < Drop(s, i)[k].pos
    ensures forall j, k :: 0 <= j < k < |Drop(s, i)| ==> Drop(s, i)[j].id != Drop(s, i)[k].id
  {
    var t := Drop(s, i);
    assert forall j :: 0 <= j < |t| ==> t[j] == (if j < i then s[j] else s[j + 1]);
  }

  lemma {:induction false} InsertIds(s: seq<Entry>, e: Entry)
    ensures multiset(Ids(Insert(s, e))) == multiset(Ids(s)) + multiset{e.id} && |Insert(s, e)| == |s| + 1
  {
    var t, i := Insert(s, e), Slot(s, e.pos);
    assert s == s[..i] + s[i..];
    assert Ids(s) == Ids(s[..i]) + Ids(s[i..]);
    assert Ids(t) == Ids(s[..i]) + [e.id] + Ids(s[i..]);
  }

  lemma {:induction false} InsertSorted(s: seq<Entry>, e: Entry)
    requires forall j, k :: 0 <= j < k < |s| ==> s[j].pos < s[k].pos
    requires forall j, k :: 0 <= j < k < |s| ==> s[j].id != s[k].id
    requires Alias(s, e.pos).None? && e.id !in Ids(s)
    ensures forall j, k :: 0 <= j < k < |Insert(s, e)| ==> Insert(s, e)[j].pos < Insert(s, e)[k].pos
    ensures forall j, k :: 0 <= j < k < |Insert(s, e)| ==> Insert(s, e)[j].id != Insert(s, e)[k].id
  {
    var t, i := Insert(s, e), Slot(s, e.pos);
    assert forall j :: 0 <= j < |t| ==> t[j] == (if j < i then s[j] else if j == i then e else s[j - 1]);
    forall j | 0 <= j < |s|
      ensures s[j].id != e.id
    {
      assert Ids(s)[j] in Ids(s);
    }
  }

  lemma {:induction false} RemovedOk(s: Side, out: multiset<nat>, id: nat)
    requires SideOk(s, out) && id in Ids(s.sort)
    ensures SideOk(Removed(s, id), out)
    ensures multiset(Ids(Removed(s, id).sort)) + multiset{id} == multiset(Ids(s.sort))
    ensures |Removed(s, id).sort| == |s.sort| - 1 && |Removed(s, id).fifo| == |s.fifo| - 1
  {
    InIds(s.sort, id);
    InFifo(s.fifo, id);
    var i := IndexOf(s.sort, id);
    IdsDrop(s.sort, i);
    FifoIdsDrop(s.fifo, FifoIndex(s.fifo, id));
    DropSorted(s.sort, i);
    NextStays(s, out, id);
    var r := Removed(s, id);
    Cancels(multiset(Ids(r.sort)) + out, multiset(FifoIds(r.fifo)), multiset{id});
  }

  lemma {:induction false} NextStays(s: Side, out: multiset<nat>, id: nat)
    requires SideOk(s, out) && id in Ids(s.sort) && IndexOf(s.sort, id) < |s.sort|
    ensures var r := Removed(s, id); r.next.Some? ==> r.next.value in Ids(r.sort) || r.next.value in out
    ensures var i := IndexOf(s.sort, id);
            Latter(s.sort, id).Some? ==>
              Latter(s.sort, id).value in Ids(Drop(s.sort, i)) && Latter(s.sort, id).value != id
  {
    var i := IndexOf(s.sort, id);
    if i + 1 < |s.sort| {
      assert Ids(s.sort)[i + 1] == s.sort[i + 1].id;
      DropMembers(s.sort, i, s.sort[i + 1].id);
    }
    if s.next.Some? && s.next.value != id && s.next.value in Ids(s.sort) {
      DropMembers(s.sort, i, s.next.value);
    }
  }

  /** A request that is held is on neither of the other lists and in the other tree. */
  lemma {:induction false} HeldOnce(d: Data, write: bool, out: multiset<nat>, id: nat)
    requires MidInv(d, write, out) && id in Ids(Of(d, write).sort)
    ensures id !in Ids(Of(d, !write).sort) && id !in out && id !in d.dispatched && id !in d.merged
  {
    DistinctCount(d.added, id);
    InIds(Of(d, write).sort, id);
    InIds(Of(d, !write).sort, id);
    assert Everything(d, out)[id] <= 1;
  }

  lemma {:induction false} DistinctCount(s: seq<nat>, x: nat)
    requires Distinct(s)
    ensures multiset(s)[x] <= 1
  {
    if s != [] {
      assert s == [s[0]] + s[1..];
      DistinctCount(s[1..], x);
      assert s[0] !in s[1..];
    }
  }

  lemma {:induction false} MoveOk(d: Data, write: bool, out: multiset<nat>, id: nat)
    requires MidInv(d, write, out) && id in Ids(Of(d, write).sort)
    ensures MidInv(Move(d, write, id), write, out)
    ensures var d' := Move(d, write, id);
            && |Of(d', write).sort| == |Of(d, write).sort| - 1 && Of(d', !write).sort == Of(d, !write).sort
            && |Of(d', write).fifo| == |Of(d, write).fifo| - 1 && Of(d', !write).fifo == Of(d, !write).fifo
  {
    var s := Of(d, write);
    var t := s.(next := Latter(s.sort, id));
    LatterOk(s, out, id);
    RemovedOk(t, out, id);
    var d' := Move(d, write, id);
    assert Of(d', write) == Removed(t, id);
    assert Of(d', !write) == Of(d, !write).(next := None);
    EverythingMoved(d, d', write, out, id);
  }

  lemma {:induction false} EverythingMoved(d: Data, d': Data, write: bool, out: multiset<nat>, id: nat)
    requires multiset(Ids(Of(d', write).sort)) + multiset{id} == multiset(Ids(Of(d, write).sort))
    requires Of(d', !write).sort == Of(d, !write).sort && d'.dispatched == d.dispatched + [id] && d'.merged == d.merged
    ensures Everything(d', out) == Everything(d, out)
  {
    assert multiset(d'.dispatched) == multiset(d.dispatched) + multiset{id};
  }

  lemma {:induction false} LatterOk(s: Side, out: multiset<nat>, id: nat)
    requires SideOk(s, out) && id in Ids(s.sort)
    ensures SideOk(s.(next := Latter(s.sort, id)), out)
  {
    InIds(s.sort, id);
    var i := IndexOf(s.sort, id);
    if i + 1 < |s.sort| {
      assert Ids(s.sort)[i + 1] == s.sort[i + 1].id;
    }
  }

  // ---------- Putting a request in ----------

  /** The requests held, counting those out of the tree for the moment. */
  function Held(d: Data, out: multiset<nat>): int {
    |d.readSide.sort| + |d.writeSide.sort| + |out|
  }

  lemma {:induction false} AliasGone(s: seq<Entry>, pos: nat)
    requires forall i, j :: 0 <= i < j < |s| ==> s[i].pos < s[j].pos
    requires forall i, j :: 0 <= i < j < |s| ==> s[i].id != s[j].id
    requires Alias(s, pos).Some?
    ensures Alias(s, pos).value in Ids(s)
    ensures Alias(Drop(s, IndexOf(s, Alias(s, pos).value)), pos).None?
  {
    var i := Slot(s, pos);
    assert Ids(s)[i] == s[i].id;
    assert IndexOf(s, s[i].id) == i;
    var t := Drop(s, i);
    assert forall k :: 0 <= k < |t| ==> t[k] == (if k < i then s[k] else s[k + 1]);
  }

  lemma {:induction false} MakeRoomOk(d: Data, write: bool, out: multiset<nat>, pos: nat)
    requires MidInv(d, write, out)
    ensures MidInv(MakeRoom(d, write, pos), write, out)
    ensures Alias(Of(MakeRoom(d, write, pos), write).sort, pos).None?
    ensures MakeRoom(d, write, pos).nrSorted - Held(MakeRoom(d, write, pos), out) == d.nrSorted - Held(d, out)
  {
    var s := Of(d, write).sort;
    if Alias(s, pos).Some? {
      AliasGone(s, pos);
      MoveOk(d, write, out, Alias(s, pos).value);
    }
  }

  lemma {:induction false} WithEntryOk(d: Data, write: bool, e: Entry)
    requires MidInv(d, write, multiset{e.id}) && Alias(Of(d, write).sort, e.pos).None?
    ensures MidInv(WithEntry(d, write, e), write, multiset{})
    ensures WithEntry(d, write, e).nrSorted - Held(WithEntry(d, write, e), multiset{})
         == d.nrSorted - Held(d, multiset{e.id})
  {
    OutIsNotHeld(d, write, e.id);
    var s := Of(d, write);
    InsertIds(s.sort, e);
    InsertedSide(s, e);
    var d' := WithEntry(d, write, e);
    assert Of(d', write) == s.(sort := Insert(s.sort, e)) && Of(d', !write) == Of(d, !write);
    assert Everything(d', multiset{}) == Everything(d, multiset{e.id});
  }

  lemma {:induction false} AddRbOk(d: Data, write: bool, e: Entry)
    requires MidInv(d, write, multiset{e.id})
    ensures MidInv(AddRb(d, write, e), write, multiset{})
    ensures AddRb(d, write, e).nrSorted - Held(AddRb(d, write, e), multiset{}) == d.nrSorted - Held(d, multiset{e.id})
  {
    MakeRoomOk(d, write, multiset{e.id}, e.pos);
    WithEntryOk(MakeRoom(d, write, e.pos), write, e);
  }

  lemma {:induction false} OutIsNotHeld(d: Data, write: bool, id: nat)
    requires MidInv(d, write, multiset{id})
    ensures id !in Ids(Of(d, write).sort)
  {
    if id in Ids(Of(d, write).sort) {
      HeldOnce(d, write, multiset{id}, id);
    }
  }

  lemma {:induction false} InsertedSide(s: Side, e: Entry)
    requires SideOk(s, multiset{e.id}) && Alias(s.sort, e.pos).None? && e.id !in Ids(s.sort)
    ensures SideOk(s.(sort := Insert(s.sort, e)), multiset{})
  {
    InsertSorted(s.sort, e);
    InsertIds(s.sort, e);
    if s.next.Some? {
      InIds(s.sort, s.next.value);
      InIds(Insert(s.sort, e), s.next.value);
    }
  }

  lemma {:induction false} MidInvOther(d: Data, write: bool)
    requires MidInv(d, write, multiset{})
    ensures MidInv(d, !write, multiset{})
  {
  }

  // ---------- Every event keeps the invariant ----------

  lemma {:induction false} ArrivedSide(s: Side, e: Entry, x: Timed)
    requires SideOk(s, multiset{}) && Alias(s.sort, e.pos).None? && e.id !in Ids(s.sort) && x.id == e.id
    ensures SideOk(s.(sort := Insert(s.sort, e), fifo := s.fifo + [x]), multiset{})
  {
    assert FifoIds(s.fifo + [x]) == FifoIds(s.fifo) + [x.id];
    InsertedSide(s.(fifo := s.fifo + [x]), e);
  }

  /** A request that was never added is not held. */
  lemma {:induction false} NewIsNotHeld(d: Data, write: bool, id: nat)
    requires MidInv(d, write, multiset{}) && id !in d.added
    ensures id !in Ids(Of(d, write).sort)
  {
    InIds(Of(d, write).sort, id);
    assert multiset(d.added)[id] == 0;
  }

  lemma {:induction false} LogGrows(d: Data, d': Data, write: bool, id: nat)
    requires Distinct(d.added) && Everything(d, multiset{}) == multiset(d.added) && id !in d.added
    requires multiset(Ids(Of(d', write).sort)) == multiset(Ids(Of(d, write).sort)) + multiset{id}
    requires Of(d', !write).sort == Of(d, !write).sort
    requires d'.dispatched == d.dispatched && d'.merged == d.merged && d'.added == d.added + [id]
    ensures Distinct(d'.added) && Everything(d', multiset{}) == multiset(d'.added)
  {
    assert multiset(d'.added) == multiset(d.added) + multiset{id};
  }

  lemma {:induction false} EnterOk(d: Data, write: bool, e: Entry, x: Timed, now: int)
    requires MidInv(d, write, multiset{}) && Alias(Of(d, write).sort, e.pos).None? && e.id !in d.added && x.id == e.id
    ensures MidInv(Enter(d, write, e, x, now), write, multiset{})
    ensures Held(Enter(d, write, e, x, now), multiset{}) == Held(d, multiset{}) + 1
  {
    var s := Of(d, write);
    NewIsNotHeld(d, write, e.id);
    ArrivedSide(s, e, x);
    InsertIds(s.sort, e);
    var d' := Enter(d, write, e, x, now);
    assert Of(d', write) == s.(sort := Insert(s.sort, e), fifo := s.fifo + [x]) && Of(d', !write) == Of(d, !write);
    LogGrows(d, d', write, e.id);
  }

  lemma {:induction false} EnterInv(d: Data, write: bool, e: Entry, x: Timed, now: int)
    requires MidInv(d, write, multiset{}) && Alias(Of(d, write).sort, e.pos).None? && e.id !in d.added && x.id == e.id
    requires d.nrSorted == Held(d, multiset{}) + 1
    ensures Inv(Enter(d, write, e, x, now))
  {
    EnterOk(d, write, e, x, now);
    if write {
      MidInvOther(Enter(d, write, e, x, now), write);
    }
  }

  lemma {:induction false} RoomForNew(d: Data, write: bool, pos: nat)
    requires Inv(d)
    ensures var d1 := MakeRoom(d.(nrSorted := d.nrSorted + 1), write, pos);
            && MidInv(d1, write, multiset{}) && Alias(Of(d1, write).sort, pos).None?
            && d1.nrSorted == Held(d1, multiset{}) + 1 && d1.added == d.added
  {
    var d0 := d.(nrSorted := d.nrSorted + 1);
    if write {
      MidInvOther(d, false);
    }
    assert MidInv(d0, write, multiset{});
    MakeRoomOk(d0, write, multiset{}, pos);
  }

  lemma {:induction false} AddEnters(c: Settings, d: Data, write: bool, id: nat, pos: nat, now: int)
    ensures Add(c, d, write, id, pos, now)
         == Enter(MakeRoom(d.(nrSorted := d.nrSorted + 1), write, pos), write, Entry(id, pos),
                  Timed(id, now + Expire(c, write)), now)
  {
  }

  lemma {:induction false} AddKeeps(c: Settings, d: Data, write: bool, id: nat, pos: nat, now: int)
    requires Inv(d) && id !in d.added
    ensures Inv(Add(c, d, write, id, pos, now))
  {
    RoomForNew(d, write, pos);
    AddEnters(c, d, write, id, pos, now);
    EnteredInv(MakeRoom(d.(nrSorted := d.nrSorted + 1), write, pos), write, Entry(id, pos),
               Timed(id, now + Expire(c, write)), now, Add(c, d, write, id, pos, now));
  }

  lemma {:induction false} EnteredInv(d: Data, write: bool, e: Entry, x: Timed, now: int, d': Data)
    requires MidInv(d, write, multiset{}) && Alias(Of(d, write).sort, e.pos).None? && e.id !in d.added && x.id == e.id
    requires d.nrSorted == Held(d, multiset{}) + 1 && d' == Enter(d, write, e, x, now)
    ensures Inv(d')
  {
    EnterInv(d, write, e, x, now);
  }

  lemma {:induction false} LiftedSide(s: Side, id: nat)
    requires SideOk(s, multiset{}) && id in Ids(s.sort)
    ensures SideOk(s.(sort := Drop(s.sort, IndexOf(s.sort, id))), multiset{id})
    ensures multiset(Ids(Drop(s.sort, IndexOf(s.sort, id)))) + multiset{id} == multiset(Ids(s.sort))
  {
    InIds(s.sort, id);
    var i := IndexOf(s.sort, id);
    IdsDrop(s.sort, i);
    DropSorted(s.sort, i);
    if s.next.Some? && s.next.value != id {
      DropMembers(s.sort, i, s.next.value);
    }
  }

  lemma {:induction false} FrontMergedKeeps(d: Data, write: bool, id: nat, pos: nat)
    requires Inv(d) && id in Ids(Of(d, write).sort)
    ensures Inv(FrontMerged(d, write, id, pos))
  {
    var s := Of(d, write);
    LiftedSide(s, id);
    InIds(s.sort, id);
    var d1 := With(d, write, s.(sort := Drop(s.sort, IndexOf(s.sort, id))));
    assert Of(d1, !write) == Of(d, !write);
    assert Everything(d1, multiset{id}) == Everything(d, multiset{});
    AddRbOk(d1, write, Entry(id, pos));
    if write {
      MidInvOther(FrontMerged(d, write, id, pos), write);
    }
  }

  lemma {:induction false} FifoIdsInsert(g: seq<Timed>, k: nat, x: Timed)
    requires k <= |g|
    ensures multiset(FifoIds(g[..k] + [x] + g[k..])) == multiset(FifoIds(g)) + multiset{x.id}
  {
    assert g == g[..k] + g[k..];
    assert FifoIds(g) == FifoIds(g[..k]) + FifoIds(g[k..]);
    assert FifoIds(g[..k] + [x] + g[k..]) == FifoIds(g[..k]) + [x.id] + FifoIds(g[k..]);
  }

  lemma {:induction false} HastenIds(f: seq<Timed>, rq: nat, next: nat)
    requires rq != next
    ensures multiset(FifoIds(Hasten(f, rq, next))) == multiset(FifoIds(f))
  {
    var i, j := FifoIndex(f, rq), FifoIndex(f, next);
    if i < |f| && j < |f| && i != j && f[j].expires < f[i].expires {
      var g := Drop(f, i);
      FifoIdsDrop(f, i);
      InFifo(f, next);
      InFifo(g, next);
      var k := FifoIndex(g, next);
      FifoIdsInsert(g, k + 1, Timed(rq, f[j].expires));
    }
  }

  lemma {:induction false} MergedRequestsKeeps(d: Data, write: bool, rq: nat, next: nat)
    requires Inv(d) && rq != next && next in Ids(Of(d, write).sort)
    ensures Inv(MergedRequests(d, write, rq, next))
  {
    var s := Of(d, write);
    HastenIds(s.fifo, rq, next);
    var t := s.(fifo := Hasten(s.fifo, rq, next));
    RemovedOk(t, multiset{}, next);
    NextOnlyMoves(t, next);
    var d' := MergedRequests(d, write, rq, next);
    assert Of(d', !write) == Of(d, !write) && Of(d', write) == Removed(t, next);
    assert multiset(d'.merged) == multiset(d.merged) + multiset{next};
    assert Everything(d', multiset{}) == Everything(d, multiset{});
  }

  /** Taking a request out sets next_rq only if it was set. */
  lemma {:induction false} NextOnlyMoves(s: Side, id: nat)
    ensures Removed(s, id).next.Some? ==> s.next.Some?
  {
  }

  lemma {:induction false} BatchStartHeld(s: Side, now: int)
    requires SideOk(s, multiset{}) && s.fifo != []
    ensures BatchStart(s, now) in Ids(s.sort)
  {
    assert FifoIds(s.fifo)[0] == s.fifo[0].id;
    InIds(s.sort, s.fifo[0].id);
    assert s.fifo[0].id in multiset(FifoIds(s.fifo));
  }

  lemma {:induction false} MoveKeeps(d: Data, write: bool, id: nat)
    requires Inv(d) && id in Ids(Of(d, write).sort)
    ensures Inv(Move(d, write, id))
    ensures |Move(d, write, id).readSide.fifo| + |Move(d, write, id).writeSide.fifo|
         == |d.readSide.fifo| + |d.writeSide.fifo| - 1
  {
    if write {
      MidInvOther(d, false);
    }
    MoveOk(d, write, multiset{}, id);
    if write {
      MidInvOther(Move(d, write, id), true);
    }
  }

  lemma {:induction false} StartBatchKeeps(d: Data, write: bool, now: int)
    requires Inv(d) && Of(d, write).fifo != []
    ensures Inv(StartBatch(d, write, now))
    ensures |StartBatch(d, write, now).readSide.fifo| + |StartBatch(d, write, now).writeSide.fifo|
         == |d.readSide.fifo| + |d.writeSide.fifo| - 1
  {
    BatchStartHeld(Of(d, write), now);
    MoveKeeps(d.(batching := 1), write, BatchStart(Of(d, write), now));
  }

  lemma {:induction false} InvFrame(d: Data, batching: nat, starved: nat, now: int)
    requires Inv(d)
    ensures Inv(d.(batching := batching, starved := starved, now := now))
  {
  }

  /** The requests on both fifo lists. */
  function Waiting(d: Data): nat {
    |d.readSide.fifo| + |d.writeSide.fifo|
  }

  lemma {:induction false} BatchGoesOn(c: Settings, d: Data, now: int)
    requires Inv(d) && BatchNext(d).Some? && d.batching < c.fifoBatch
    ensures var d' := Dispatch(c, d, now).0; Inv(d') && Waiting(d) > 0 && Waiting(d') == Waiting(d) - 1
  {
    var write := d.writeSide.next.Some?;
    HeldMeansFifo(Of(d, write), BatchNext(d).value);
    InvFrame(d, d.batching + 1, d.starved, now);
    MoveKeeps(d.(batching := d.batching + 1, starved := d.starved, now := now), write, BatchNext(d).value);
  }

  /** A new batch of reads. */
  lemma {:induction false} NewReadBatch(c: Settings, d: Data, now: int)
    requires Inv(d) && !(BatchNext(d).Some? && d.batching < c.fifoBatch)
    requires d.readSide.fifo != [] && !(d.writeSide.fifo != [] && d.starved >= c.writesStarved)
    ensures var (d', served) := Dispatch(c, d, now); Inv(d') && Waiting(d') == Waiting(d) - 1 && served != Nothing
  {
    var starved := if d.writeSide.fifo != [] then d.starved + 1 else d.starved;
    InvFrame(d, d.batching, starved, now);
    StartBatchKeeps(d.(batching := d.batching, starved := starved, now := now), false, now);
  }

  lemma {:induction false} WriteBatchIs(c: Settings, d: Data, now: int)
    requires !(BatchNext(d).Some? && d.batching < c.fifoBatch)
    requires d.writeSide.fifo != [] && (d.readSide.fifo == [] || d.starved >= c.writesStarved)
    ensures Dispatch(c, d, now)
         == (StartBatch(d.(batching := d.batching, starved := 0, now := now), true, now), Write)
  {
  }

  /** A new batch of writes. */
  lemma {:induction false} NewWriteBatch(c: Settings, d: Data, now: int)
    requires Inv(d) && !(BatchNext(d).Some? && d.batching < c.fifoBatch)
    requires d.writeSide.fifo != [] && (d.readSide.fifo == [] || d.starved >= c.writesStarved)
    ensures var (d', served) := Dispatch(c, d, now); Inv(d') && Waiting(d') == Waiting(d) - 1 && served != Nothing
  {
    WriteBatchIs(c, d, now);
    InvFrame(d, d.batching, 0, now);
    StartBatchKeeps(d.(batching := d.batching, starved := 0, now := now), true, now);
  }

  lemma {:induction false} NewBatch(c: Settings, d: Data, now: int)
    requires Inv(d) && !(BatchNext(d).Some? && d.batching < c.fifoBatch) && Waiting(d) > 0
    ensures var (d', served) := Dispatch(c, d, now); Inv(d') && Waiting(d') == Waiting(d) - 1 && served != Nothing
  {
    if d.readSide.fifo != [] && !(d.writeSide.fifo != [] && d.starved >= c.writesStarved) {
      NewReadBatch(c, d, now);
    } else {
      NewWriteBatch(c, d, now);
    }
  }

  /** A call dispatches one request, unless there is none. */
  lemma {:induction false} DispatchKeeps(c: Settings, d: Data, now: int)
    requires Inv(d)
    ensures var (d', served) := Dispatch(c, d, now);
            && Inv(d')
            && (served == Nothing <==> Waiting(d) == 0)
            && (served == Nothing ==> d' == d.(now := now))
            && (served != Nothing ==> Waiting(d') == Waiting(d) - 1)
  {
    if BatchNext(d).Some? && d.batching < c.fifoBatch {
      BatchGoesOn(c, d, now);
    } else if Waiting(d) > 0 {
      NewBatch(c, d, now);
    } else {
      InvFrame(d, d.batching, d.starved, now);
    }
  }

  lemma {:induction false} HeldMeansFifo(s: Side, id: nat)
    requires SideOk(s, multiset{}) && id in Ids(s.sort)
    ensures s.fifo != []
  {
    InIds(s.sort, id);
    InFifo(s.fifo, id);
  }
}
