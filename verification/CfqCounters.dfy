/**
 The counters of the CFQ scheduler: queues on service trees, trees of groups, and groups on the
 tree of the device, with queues that move between their own group and the root group.
 */
module CfqCounters {
  import opened Wrappers

  datatype Prio = BestEffort | RealTime | IdleClass

  // One of the seven service trees of a group.
  datatype Tree = Tree(group: nat, index: nat)

  // A queue: its flags, its groups, and the tree its node is in, with its key there.
  datatype Cfqq = Cfqq(onRr: bool, prio: Prio, sync: bool, idleWindow: bool, group: nat, orig: Option<nat>,
                       tree: Option<Tree>, key: int)

  // A group: the count of each tree, the number of queues, whether it is on the device's tree.
  datatype Group = Group(counts: seq<int>, nrCfqq: int, onSt: bool, weight: nat)

  // bug is set where a BUG_ON would stop the machine.
  datatype Data = Data(queues: seq<Cfqq>, groups: seq<Group>, busy: int, totalWeight: int, isolation: bool, bug: bool)

  const ROOT: nat := 0

  /** cfqq_type, as the second index of the service trees. */
  function Kind(q: Cfqq): nat {
    if !q.sync then 0 else if !q.idleWindow then 1 else 2
  }

  /** service_tree_for */
  function TreeFor(q: Cfqq): (t: Tree)
    ensures t.index < 7 && t.group == q.group
  {
    Tree(q.group, match q.prio case IdleClass => 6 case BestEffort => Kind(q) case RealTime => 3 + Kind(q))
  }

  predicate Shaped(d: Data) {
    && |d.groups| > 0
    && (forall g :: 0 <= g < |d.groups| ==> |d.groups[g].counts| == 7)
    && (forall i :: 0 <= i < |d.queues| ==>
          && d.queues[i].group < |d.groups|
          && (d.queues[i].orig.Some? ==> d.queues[i].orig.value < |d.groups|)
          && (d.queues[i].tree.Some? ==> d.queues[i].tree.value.group < |d.groups| && d.queues[i].tree.value.index < 7))
  }

  // ---------- The operations ----------

  /** cfq_group_service_tree_add */
  function GroupAdd(d: Data, g: nat): Data
    requires g < |d.groups|
  {
    var grp := d.groups[g];
    d.(groups := d.groups[g := grp.(nrCfqq := grp.nrCfqq + 1, onSt := true)],
       totalWeight := if grp.onSt then d.totalWeight else d.totalWeight + grp.weight)
  }

  /** cfq_group_service_tree_del */
  function GroupDel(d: Data, g: nat): Data
    requires g < |d.groups|
  {
    var grp := d.groups[g];
    var last := grp.nrCfqq - 1 == 0;
    d.(groups := d.groups[g := grp.(nrCfqq := grp.nrCfqq - 1, onSt := if last then false else grp.onSt)],
       totalWeight := if last then d.totalWeight - grp.weight else d.totalWeight,
       bug := d.bug || grp.nrCfqq < 1)
  }

  function AddCount(d: Data, t: Tree, n: int): Data
    requires t.group < |d.groups| && t.index < |d.groups[t.group].counts|
  {
    var grp := d.groups[t.group];
    d.(groups := d.groups[t.group := grp.(counts := grp.counts[t.index := grp.counts[t.index] + n])])
  }

  /** cfq_rb_erase on the service tree of a queue. */
  function Erase(d: Data, i: nat): Data
    requires Shaped(d) && i < |d.queues|
  {
    if d.queues[i].tree.None? then d
    else AddCount(d, d.queues[i].tree.value, -1).(queues := d.queues[i := d.queues[i].(tree := None)])
  }

  // Where a queue moves before it is put on a tree.
  datatype Move = Stay | ToRoot | ToOrigin

  function Moves(d: Data, q: Cfqq): Move {
    if !d.isolation && Kind(q) == 1 && q.group != ROOT then ToRoot
    else if !d.isolation && Kind(q) == 2 && q.orig.Some? then ToOrigin
    else Stay
  }

  /** The queue in its new group. */
  function Moved(q: Cfqq, m: Move): Cfqq
    requires m == ToOrigin ==> q.orig.Some?
  {
    match m
    case Stay => q
    case ToRoot => q.(orig := Some(q.group), group := ROOT)
    case ToOrigin => q.(group := q.orig.value, orig := None)
  }

  /** The part of cfq_service_tree_add that moves the queue to another group. */
  function Regroup(d: Data, i: nat): Data
    requires Shaped(d) && i < |d.queues|
  {
    var q := d.queues[i];
    var m := Moves(d, q);
    if m == Stay then d
    else
      var d1 := d.(bug := d.bug || (m == ToOrigin && q.group != ROOT));
      var d2 := if q.tree.Some? then GroupDel(d1, q.group) else d1;
      d2.(queues := d.queues[i := Moved(q, m)])
  }

  /** The part of cfq_service_tree_add that puts the queue's node into a tree. */
  function Link(d: Data, i: nat, key: int): Data
    requires Shaped(d) && i < |d.queues|
  {
    var q := d.queues[i];
    AddCount(d, TreeFor(q), 1).(queues := d.queues[i := q.(tree := Some(TreeFor(q)), key := key)])
  }

  lemma {:induction false} RegroupShaped(d: Data, i: nat)
    requires Shaped(d) && i < |d.queues|
    ensures Shaped(Regroup(d, i)) && |Regroup(d, i).queues| == |d.queues| && |Regroup(d, i).groups| == |d.groups|
  {
  }

  /** cfq_service_tree_add, with the key it works out for the queue. */
  function TreeAdd(d: Data, i: nat, key: int, front: bool): Data
    requires Shaped(d) && i < |d.queues|
  {
    RegroupShaped(d, i);
    var d1 := Regroup(d, i);
    var q := d1.queues[i];
    var changed := Moves(d, d.queues[i]) != Stay;
    if q.tree.Some? && key == q.key && q.tree.value == TreeFor(q) then d1
    else
      var d2 := Link(Erase(d1, i), i, key);
      if (front || q.tree.Some?) && !changed then d2 else GroupAdd(d2, q.group)
  }

  /** The queue is marked on_rr and counted. */
  function Marked(d: Data, i: nat): Data
    requires i < |d.queues|
  {
    d.(queues := d.queues[i := d.queues[i].(onRr := true)], busy := d.busy + 1, bug := d.bug || d.queues[i].onRr)
  }

  /** cfq_add_cfqq_rr */
  function AddRr(d: Data, i: nat, key: int): Data
    requires Shaped(d) && i < |d.queues|
  {
    TreeAdd(Marked(d, i), i, key, false)
  }

  function Unmarked(d: Data, i: nat): Data
    requires i < |d.queues|
  {
    d.(queues := d.queues[i := d.queues[i].(onRr := false)], bug := d.bug || !d.queues[i].onRr)
  }

  function Uncounted(d: Data): Data {
    d.(busy := d.busy - 1, bug := d.bug || d.busy == 0)
  }

  /** cfq_del_cfqq_rr */
  function DelRr(d: Data, i: nat): Data
    requires Shaped(d) && i < |d.queues|
  {
    Uncounted(GroupDel(Erase(Unmarked(d, i), i), d.queues[i].group))
  }

  /** The check of cfq_group_served: the queues that are neither asynchronous nor idle. */
  function NrSync(g: Group): int
    requires |g.counts| == 7
  {
    g.nrCfqq - (g.counts[3] + g.counts[0]) - g.counts[6]
  }

  // ---------- The invariant ----------

  /** The queues in a tree. */
  function TreeSize(qs: seq<Cfqq>, t: Tree): nat {
    if qs == [] then 0 else TreeSize(qs[..|qs| - 1], t) + (if qs[|qs| - 1].tree == Some(t) then 1 else 0)
  }

  function Sum(s: seq<int>): int {
    if s == [] then 0 else Sum(s[..|s| - 1]) + s[|s| - 1]
  }

  function Queues(gs: seq<Group>): int {
    if gs == [] then 0 else Queues(gs[..|gs| - 1]) + gs[|gs| - 1].nrCfqq
  }

  function Weights(gs: seq<Group>): int {
    if gs == [] then 0 else Weights(gs[..|gs| - 1]) + (if gs[|gs| - 1].onSt then gs[|gs| - 1].weight else 0)
  }

  /** A queue is on a tree of its group exactly if it is on_rr; one away from home is in the root group. */
  predicate QueueOk(q: Cfqq) {
    && (q.onRr <==> q.tree.Some?)
    && OwnTree(q)
    && AtHome(q)
  }

  predicate OwnTree(q: Cfqq) {
    q.tree.Some? ==> q.tree.value.group == q.group
  }

  /** A queue that has left its group is in the root group. */
  predicate AtHome(q: Cfqq) {
    q.orig.Some? ==> q.group == ROOT && q.orig.value != ROOT
  }

  predicate QueuesOk(qs: seq<Cfqq>) {
    forall i :: 0 <= i < |qs| ==> QueueOk(qs[i])
  }

  /** The count of every service tree is its size. */
  predicate CountsOk(d: Data)
    requires Shaped(d)
  {
    forall g, t :: 0 <= g < |d.groups| && 0 <= t < 7 ==> d.groups[g].counts[t] == TreeSize(d.queues, Tree(g, t))
  }

  /** Every group's number of queues is the sum of its counts, but for one group that is n ahead. */
  predicate NumbersOk(d: Data, g0: nat, n: int) {
    forall g :: 0 <= g < |d.groups| ==> d.groups[g].nrCfqq == Sum(d.groups[g].counts) + (if g == g0 then n else 0)
  }

  /** A group is on the device's tree exactly if it has queues, and the weights on it are added up. */
  predicate DeviceOk(d: Data) {
    && (forall g :: 0 <= g < |d.groups| ==> d.groups[g].nrCfqq >= 0 && (d.groups[g].onSt <==> d.groups[g].nrCfqq > 0))
    && d.totalWeight == Weights(d.groups)
  }

  /** The invariant between the steps of an operation. */
  predicate MidInv(d: Data, g0: nat, n: int) {
    Shaped(d) && CountsOk(d) && NumbersOk(d, g0, n) && DeviceOk(d) && !d.bug
  }

  predicate Inv(d: Data) {
    && MidInv(d, ROOT, 0) && QueuesOk(d.queues)
    && d.busy == Queues(d.groups)
  }

  // ---------- Sums ----------

  lemma {:induction false} TreeSizeUpdate(qs: seq<Cfqq>, i: nat, q: Cfqq, t: Tree)
    requires i < |qs|
    ensures TreeSize(qs[i := q], t)
         == TreeSize(qs, t) - (if qs[i].tree == Some(t) then 1 else 0) + (if q.tree == Some(t) then 1 else 0)
  {
    var n := |qs| - 1;
    if i < n {
      TreeSizeUpdate(qs[..n], i, q, t);
      assert qs[i := q][..n] == qs[..n][i := q];
    } else {
      assert qs[i := q][..n] == qs[..n];
    }
  }

  lemma {:induction false} SumUpdate(s: seq<int>, i: nat, v: int)
    requires i < |s|
    ensures Sum(s[i := v]) == Sum(s) - s[i] + v
  {
    var n := |s| - 1;
    if i < n {
      SumUpdate(s[..n], i, v);
      assert s[i := v][..n] == s[..n][i := v];
    } else {
      assert s[i := v][..n] == s[..n];
    }
  }

  lemma {:induction false} GroupsUpdate(gs: seq<Group>, i: nat, g: Group)
    requires i < |gs|
    ensures Queues(gs[i := g]) == Queues(gs) - gs[i].nrCfqq + g.nrCfqq
    ensures Weights(gs[i := g])
         == Weights(gs) - (if gs[i].onSt then gs[i].weight else 0) + (if g.onSt then g.weight else 0)
  {
    var n := |gs| - 1;
    if i < n {
      GroupsUpdate(gs[..n], i, g);
      assert gs[i := g][..n] == gs[..n][i := g];
    } else {
      assert gs[i := g][..n] == gs[..n];
    }
  }

  lemma {:induction false} SumBounds(s: seq<int>, i: nat)
    requires i < |s| && forall k :: 0 <= k < |s| ==> s[k] >= 0
    ensures Sum(s) >= s[i] && Sum(s) >= 0
  {
    var n := |s| - 1;
    if n > 0 {
      SumBounds(s[..n], if i < n then i else 0);
    }
  }

  // ---------- Each step ----------

  lemma {:induction false} GroupAddOk(d: Data, g: nat, n: int)
    requires MidInv(d, g, n) && g < |d.groups|
    ensures MidInv(GroupAdd(d, g), g, n + 1) && Queues(GroupAdd(d, g).groups) == Queues(d.groups) + 1
  {
    var grp := d.groups[g];
    GroupsUpdate(d.groups, g, grp.(nrCfqq := grp.nrCfqq + 1, onSt := true));
  }

  lemma {:induction false} GroupDelOk(d: Data, g: nat, n: int)
    requires MidInv(d, g, n) && g < |d.groups| && d.groups[g].nrCfqq >= 1
    ensures MidInv(GroupDel(d, g), g, n - 1) && Queues(GroupDel(d, g).groups) == Queues(d.groups) - 1
  {
    var grp := d.groups[g];
    GroupsUpdate(d.groups, g, grp.(nrCfqq := grp.nrCfqq - 1, onSt := if grp.nrCfqq - 1 == 0 then false else grp.onSt));
  }

  /** The count of a tree and the sum of its group's counts change together. */
  lemma {:induction false} AddCountNumbers(d: Data, t: Tree, n: int, n0: int)
    requires Shaped(d) && NumbersOk(d, t.group, n0) && DeviceOk(d) && t.group < |d.groups| && t.index < 7
    ensures Shaped(AddCount(d, t, n)) && NumbersOk(AddCount(d, t, n), t.group, n0 - n) && DeviceOk(AddCount(d, t, n))
    ensures Queues(AddCount(d, t, n).groups) == Queues(d.groups)
  {
    var grp := d.groups[t.group];
    GroupsUpdate(d.groups, t.group, grp.(counts := grp.counts[t.index := grp.counts[t.index] + n]));
    SumUpdate(grp.counts, t.index, grp.counts[t.index] + n);
  }

  /** A node enters or leaves a tree together with its count. */
  lemma {:induction false} CountStep(d: Data, i: nat, q: Cfqq, t: Tree, n: int, n0: int)
    requires MidInv(d, t.group, n0) && i < |d.queues| && t.group < |d.groups| && t.index < 7
    requires n == (if q.tree == Some(t) then 1 else 0) - (if d.queues[i].tree == Some(t) then 1 else 0)
    requires q.tree.Some? ==> q.tree.value == t
    requires d.queues[i].tree.Some? ==> d.queues[i].tree.value == t
    requires q.group < |d.groups| && (q.orig.Some? ==> q.orig.value < |d.groups|)
    ensures var d' := AddCount(d, t, n).(queues := d.queues[i := q]);
            MidInv(d', t.group, n0 - n) && Queues(d'.groups) == Queues(d.groups)
  {
    AddCountNumbers(d, t, n, n0);
    var d' := AddCount(d, t, n).(queues := d.queues[i := q]);
    assert Shaped(d');
    forall g, k | 0 <= g < |d'.groups| && 0 <= k < 7
      ensures d'.groups[g].counts[k] == TreeSize(d'.queues, Tree(g, k))
    {
      TreeSizeUpdate(d.queues, i, q, Tree(g, k));
      assert d.groups[g].counts[k] == TreeSize(d.queues, Tree(g, k));
    }
  }

  lemma {:induction false} EraseOk(d: Data, i: nat, g: nat, n: int)
    requires MidInv(d, g, n) && i < |d.queues| && d.queues[i].tree.Some? && d.queues[i].tree.value.group == g
    ensures MidInv(Erase(d, i), g, n + 1) && Queues(Erase(d, i).groups) == Queues(d.groups)
  {
    CountStep(d, i, d.queues[i].(tree := None), d.queues[i].tree.value, -1, n);
  }

  lemma {:induction false} LinkOk(d: Data, i: nat, key: int, n: int)
    requires Shaped(d) && i < |d.queues| && d.queues[i].tree.None? && MidInv(d, d.queues[i].group, n)
    ensures MidInv(Link(d, i, key), d.queues[i].group, n - 1) && Queues(Link(d, i, key).groups) == Queues(d.groups)
  {
    var q := d.queues[i];
    CountStep(d, i, q.(tree := Some(TreeFor(q)), key := key), TreeFor(q), 1, n);
  }

  /** A queue on a tree counts for its group. */
  lemma {:induction false} OnTreeCounts(d: Data, i: nat)
    requires Shaped(d) && CountsOk(d) && i < |d.queues| && d.queues[i].tree.Some?
    ensures Sum(d.groups[d.queues[i].tree.value.group].counts) >= 1
  {
    var t := d.queues[i].tree.value;
    TreeSizeUpdate(d.queues, i, d.queues[i].(tree := None), t);
    var c := d.groups[t.group].counts;
    assert forall k :: 0 <= k < 7 ==> c[k] == TreeSize(d.queues, Tree(t.group, k));
    assert t == Tree(t.group, t.index);
    SumBounds(c, t.index);
  }

  /** Changes of a queue that leave its tree alone. */
  lemma {:induction false} QueueStep(d: Data, i: nat, q: Cfqq, g: nat, n: int)
    requires MidInv(d, g, n) && i < |d.queues| && q.tree == d.queues[i].tree
    requires q.group < |d.groups| && (q.orig.Some? ==> q.orig.value < |d.groups|)
    ensures MidInv(d.(queues := d.queues[i := q]), g, n)
  {
    forall u: Tree
      ensures TreeSize(d.queues[i := q], u) == TreeSize(d.queues, u)
    {
      TreeSizeUpdate(d.queues, i, q, u);
    }
  }

  // ---------- Each operation ----------

  /** What cfq_service_tree_add finds: a queue on on_rr, on a tree of its group or on none yet. */
  predicate Adding(d: Data, i: nat, front: bool) {
    && MidInv(d, ROOT, 0) && i < |d.queues|
    && (forall j :: 0 <= j < |d.queues| && j != i ==> QueueOk(d.queues[j]))
    && d.queues[i].onRr && OwnTree(d.queues[i]) && AtHome(d.queues[i])
    && (front ==> d.queues[i].tree.Some?)
  }

  function New(d: Data, i: nat): int
    requires i < |d.queues|
  {
    if d.queues[i].tree.None? then 1 else 0
  }

  /** The end of cfq_service_tree_add for a queue that was on no tree. */
  lemma {:induction false} LinkNew(d: Data, i: nat, key: int)
    requires Shaped(d) && i < |d.queues| && MidInv(d, d.queues[i].group, 0) && d.queues[i].tree.None?
    ensures var d' := GroupAdd(Link(d, i, key), d.queues[i].group);
            MidInv(d', ROOT, 0) && Queues(d'.groups) == Queues(d.groups) + 1
  {
    LinkOk(d, i, key, 0);
    GroupAddOk(Link(d, i, key), d.queues[i].group, -1);
  }

  /** Out of its tree and into another of the same group. */
  lemma {:induction false} Relinked(d: Data, i: nat, key: int)
    requires Shaped(d) && i < |d.queues| && MidInv(d, d.queues[i].group, 0)
    requires d.queues[i].tree.Some? && d.queues[i].tree.value.group == d.queues[i].group
    ensures var d' := Link(Erase(d, i), i, key); MidInv(d', ROOT, 0) && Queues(d'.groups) == Queues(d.groups)
  {
    EraseOk(d, i, d.queues[i].group, 0);
    LinkOk(Erase(d, i), i, key, 1);
  }

  lemma {:induction false} StayUnfolds(d: Data, i: nat, key: int, front: bool)
    requires Shaped(d) && i < |d.queues| && Moves(d, d.queues[i]) == Stay && (front ==> d.queues[i].tree.Some?)
    ensures var q := d.queues[i];
            TreeAdd(d, i, key, front)
            == (if q.tree.None? then GroupAdd(Link(d, i, key), q.group)
                else if key == q.key && q.tree.value == TreeFor(q) then d
                else Link(Erase(d, i), i, key))
  {
  }

  lemma {:induction false} TreeAddStays(d: Data, i: nat, key: int, front: bool)
    requires Adding(d, i, front) && Moves(d, d.queues[i]) == Stay
    ensures var d' := TreeAdd(d, i, key, front);
            MidInv(d', ROOT, 0) && Queues(d'.groups) == Queues(d.groups) + New(d, i)
  {
    assert MidInv(d, d.queues[i].group, 0);
    StayUnfolds(d, i, key, front);
    if d.queues[i].tree.Some? {
      Relinked(d, i, key);
    } else {
      LinkNew(d, i, key);
    }
  }

  /** A queue on a tree leaves its group for another. */
  lemma {:induction false} RegroupOk(d: Data, i: nat)
    requires MidInv(d, ROOT, 0) && i < |d.queues| && OwnTree(d.queues[i]) && AtHome(d.queues[i])
    requires Moves(d, d.queues[i]) != Stay
    ensures var d1 := Regroup(d, i);
            && MidInv(d1, d.queues[i].group, New(d, i) - 1)
            && Queues(d1.groups) == Queues(d.groups) + New(d, i) - 1
            && d1.queues == d.queues[i := Moved(d.queues[i], Moves(d, d.queues[i]))] && d1.busy == d.busy
            && d1.queues[i].group != d.queues[i].group && d1.queues[i].tree == d.queues[i].tree
  {
    var q := d.queues[i];
    var m := Moves(d, q);
    assert MidInv(d, q.group, 0);
    if q.tree.Some? {
      OnTreeCounts(d, i);
      GroupDelOk(d, q.group, 0);
      QueueStep(GroupDel(d, q.group), i, Moved(q, m), q.group, -1);
    } else {
      QueueStep(d, i, Moved(q, m), q.group, 0);
    }
  }

  lemma {:induction false} TreeAddMoves(d: Data, i: nat, key: int, front: bool)
    requires Adding(d, i, front) && Moves(d, d.queues[i]) != Stay
    ensures var d' := TreeAdd(d, i, key, front);
            MidInv(d', ROOT, 0) && Queues(d'.groups) == Queues(d.groups) + New(d, i)
  {
    RegroupOk(d, i);
    MoveUnfolds(d, i, key, front);
    var d1 := Regroup(d, i);
    if d.queues[i].tree.Some? {
      EraseOk(d1, i, d.queues[i].group, -1);
      assert MidInv(Erase(d1, i), d1.queues[i].group, 0);
      LinkNew(Erase(d1, i), i, key);
    } else {
      assert MidInv(d1, d1.queues[i].group, 0);
      LinkNew(d1, i, key);
    }
  }

  lemma {:induction false} MoveUnfolds(d: Data, i: nat, key: int, front: bool)
    requires Shaped(d) && i < |d.queues| && Moves(d, d.queues[i]) != Stay
    requires Shaped(Regroup(d, i)) && i < |Regroup(d, i).queues|
    requires var q := Regroup(d, i).queues[i]; q.tree.Some? ==> q.tree.value.group != q.group
    ensures var d1 := Regroup(d, i);
            TreeAdd(d, i, key, front)
            == GroupAdd(Link(if d1.queues[i].tree.Some? then Erase(d1, i) else d1, i, key), d1.queues[i].group)
  {
  }

  /** Erasing, linking and counting change one queue only, and leave it on a tree of its group. */
  lemma {:induction false} RelinkQueue(d: Data, i: nat, key: int)
    requires Shaped(d) && i < |d.queues|
    ensures var e := Link(Erase(d, i), i, key);
            && e.queues == d.queues[i := e.queues[i]]
            && e.queues[i] == d.queues[i].(tree := Some(TreeFor(d.queues[i])), key := key)
            && e.busy == d.busy && |e.groups| == |d.groups|
  {
  }

  /** The queue ends on a tree of its group. */
  lemma {:induction false} TreeAddQueue(d: Data, i: nat, key: int, front: bool)
    requires Adding(d, i, front)
    ensures var d' := TreeAdd(d, i, key, front);
            && d'.queues == d.queues[i := d'.queues[i]] && QueueOk(d'.queues[i]) && d'.busy == d.busy
            && |d'.groups| == |d.groups|
  {
    RegroupShaped(d, i);
    var d1 := Regroup(d, i);
    MovedOk(d, i);
    RelinkQueue(d1, i, key);
  }

  lemma {:induction false} MovedOk(d: Data, i: nat)
    requires Shaped(d) && i < |d.queues| && d.queues[i].onRr && OwnTree(d.queues[i]) && AtHome(d.queues[i])
    ensures var d1 := Regroup(d, i);
            && d1.queues == d.queues[i := d1.queues[i]] && d1.busy == d.busy && |d1.groups| == |d.groups|
            && d1.queues[i].onRr && AtHome(d1.queues[i])
  {
  }

  lemma {:induction false} TreeAddOk(d: Data, i: nat, key: int, front: bool)
    requires Adding(d, i, front)
    ensures var d' := TreeAdd(d, i, key, front);
            && MidInv(d', ROOT, 0) && QueuesOk(d'.queues) && d'.busy == d.busy
            && Queues(d'.groups) == Queues(d.groups) + New(d, i)
  {
    TreeAddQueue(d, i, key, front);
    if Moves(d, d.queues[i]) == Stay {
      TreeAddStays(d, i, key, front);
    } else {
      TreeAddMoves(d, i, key, front);
    }
  }

  lemma {:induction false} MarkedOk(d: Data, i: nat)
    requires Inv(d) && i < |d.queues| && !d.queues[i].onRr
    ensures Adding(Marked(d, i), i, false) && New(Marked(d, i), i) == 1
  {
    QueueStep(d, i, d.queues[i].(onRr := true), ROOT, 0);
  }

  lemma {:induction false} AddRrKeeps(d: Data, i: nat, key: int)
    requires Inv(d) && i < |d.queues| && !d.queues[i].onRr
    ensures Inv(AddRr(d, i, key))
  {
    MarkedOk(d, i);
    TreeAddOk(Marked(d, i), i, key, false);
  }

  lemma {:induction false} ResortKeeps(d: Data, i: nat, key: int, front: bool)
    requires Inv(d) && i < |d.queues| && d.queues[i].onRr
    ensures Inv(TreeAdd(d, i, key, front))
  {
    TreeAddOk(d, i, key, front);
  }

  lemma {:induction false} UnmarkedOk(d: Data, i: nat)
    requires Inv(d) && i < |d.queues| && d.queues[i].onRr
    ensures MidInv(Unmarked(d, i), d.queues[i].group, 0)
  {
    QueueStep(d, i, d.queues[i].(onRr := false), ROOT, 0);
  }

  lemma {:induction false} DelRrSteps(d: Data, i: nat)
    requires Inv(d) && i < |d.queues| && d.queues[i].onRr
    ensures var d' := GroupDel(Erase(Unmarked(d, i), i), d.queues[i].group);
            MidInv(d', ROOT, 0) && Queues(d'.groups) == Queues(d.groups) - 1
    ensures Queues(d.groups) >= 1
  {
    var g := d.queues[i].group;
    UnmarkedOk(d, i);
    OnTreeCounts(d, i);
    QueuesPositive(d, g);
    EraseOk(Unmarked(d, i), i, g, 0);
    GroupDelOk(Erase(Unmarked(d, i), i), g, 1);
  }

  lemma {:induction false} DelRrQueues(d: Data, i: nat)
    requires Inv(d) && i < |d.queues| && d.queues[i].onRr
    ensures QueuesOk(DelRr(d, i).queues) && DelRr(d, i).busy == d.busy - 1
    ensures GroupDel(Erase(Unmarked(d, i), i), d.queues[i].group).busy == d.busy
  {
    var q := d.queues[i];
    assert DelRr(d, i).queues == d.queues[i := q.(onRr := false, tree := None)];
  }

  lemma {:induction false} DelRrKeeps(d: Data, i: nat)
    requires Inv(d) && i < |d.queues| && d.queues[i].onRr
    ensures Inv(DelRr(d, i))
  {
    DelRrSteps(d, i);
    DelRrQueues(d, i);
  }

  lemma {:induction false} QueuesPositive(d: Data, g: nat)
    requires DeviceOk(d) && g < |d.groups|
    ensures Queues(d.groups) >= d.groups[g].nrCfqq
  {
    QueuesBound(d.groups, g);
  }

  lemma {:induction false} QueuesBound(gs: seq<Group>, g: nat)
    requires g < |gs| && forall k :: 0 <= k < |gs| ==> gs[k].nrCfqq >= 0
    ensures Queues(gs) >= gs[g].nrCfqq >= 0
  {
    var n := |gs| - 1;
    if n > 0 {
      QueuesBound(gs[..n], if g < n then g else 0);
    }
  }

  // ---------- Every run ----------

  datatype Action =
    | AddAction(i: nat, key: int)
    | DelAction(i: nat)
    | ResortAction(i: nat, key: int, front: bool)
    | ServedAction(g: nat)
    | ClassAction(i: nat, prio: Prio, sync: bool, idleWindow: bool)
    | IsolationAction(on: bool)
    | NewQueueAction(g: nat)
    | NewGroupAction(weight: nat)

  predicate Enabled(d: Data, a: Action) {
    match a
    case AddAction(i, _) => i < |d.queues| && !d.queues[i].onRr
    case DelAction(i) => i < |d.queues| && d.queues[i].onRr
    case ResortAction(i, _, _) => i < |d.queues| && d.queues[i].onRr
    case ServedAction(g) => g < |d.groups|
    case ClassAction(i, _, _, _) => i < |d.queues|
    case IsolationAction(_) => true
    case NewQueueAction(g) => g < |d.groups|
    case NewGroupAction(_) => true
  }

  function EmptyGroup(weight: nat): Group {
    Group([0, 0, 0, 0, 0, 0, 0], 0, false, weight)
  }

  function Exec(d: Data, a: Action): Data
    requires Shaped(d) && Enabled(d, a)
  {
    match a
    case AddAction(i, key) => AddRr(d, i, key)
    case DelAction(i) => DelRr(d, i)
    case ResortAction(i, key, front) => TreeAdd(d, i, key, front)
    case ServedAction(g) => d.(bug := d.bug || NrSync(d.groups[g]) < 0)
    case ClassAction(i, prio, sync, idleWindow) =>
      d.(queues := d.queues[i := d.queues[i].(prio := prio, sync := sync, idleWindow := idleWindow)])
    case IsolationAction(on) => d.(isolation := on)
    case NewQueueAction(g) => d.(queues := d.queues + [Cfqq(false, BestEffort, false, false, g, None, None, 0)])
    case NewGroupAction(weight) => d.(groups := d.groups + [EmptyGroup(weight)])
  }

  lemma {:induction false} TreeSizeZero(qs: seq<Cfqq>, t: Tree)
    requires forall i :: 0 <= i < |qs| ==> qs[i].tree != Some(t)
    ensures TreeSize(qs, t) == 0
  {
    if qs != [] {
      TreeSizeZero(qs[..|qs| - 1], t);
    }
  }

  lemma {:induction false} NewQueueKeeps(d: Data, g: nat)
    requires Inv(d) && g < |d.groups|
    ensures Inv(Exec(d, NewQueueAction(g)))
  {
    var d' := Exec(d, NewQueueAction(g));
    forall t: Tree
      ensures TreeSize(d'.queues, t) == TreeSize(d.queues, t)
    {
      assert d'.queues[..|d.queues|] == d.queues;
    }
    assert Shaped(d') && CountsOk(d');
  }

  lemma {:induction false} NewGroupKeeps(d: Data, weight: nat)
    requires Inv(d)
    ensures Inv(Exec(d, NewGroupAction(weight)))
  {
    var d' := Exec(d, NewGroupAction(weight));
    assert d'.groups[..|d.groups|] == d.groups;
    assert Shaped(d');
    forall t | 0 <= t < 7
      ensures TreeSize(d.queues, Tree(|d.groups|, t)) == 0
    {
      TreeSizeZero(d.queues, Tree(|d.groups|, t));
    }
    EmptySum();
    assert CountsOk(d') && NumbersOk(d', ROOT, 0);
  }

  lemma {:induction false} EmptySum()
    ensures Sum([0, 0, 0, 0, 0, 0, 0]) == 0
  {
    SumSeven([0, 0, 0, 0, 0, 0, 0]);
  }

  lemma {:induction false} SumSeven(c: seq<int>)
    requires |c| == 7
    ensures Sum(c) == c[0] + c[1] + c[2] + c[3] + c[4] + c[5] + c[6]
  {
    assert Sum(c[..0]) == 0;
    SumNext(c, 0);
    SumNext(c, 1);
    SumNext(c, 2);
    SumNext(c, 3);
    SumNext(c, 4);
    SumNext(c, 5);
    SumNext(c, 6);
    assert c[..7] == c;
  }

  lemma {:induction false} SumNext(c: seq<int>, k: nat)
    requires k < |c|
    ensures Sum(c[..k + 1]) == Sum(c[..k]) + c[k]
  {
    assert c[..k + 1][..k] == c[..k];
  }

  /** The check of cfq_group_served never stops the machine. */
  lemma {:induction false} ServedOk(d: Data, g: nat)
    requires Inv(d) && g < |d.groups|
    ensures NrSync(d.groups[g]) >= 0
  {
    SumSeven(d.groups[g].counts);
    var c := d.groups[g].counts;
    assert c[1] == TreeSize(d.queues, Tree(g, 1)) && c[2] == TreeSize(d.queues, Tree(g, 2));
    assert c[4] == TreeSize(d.queues, Tree(g, 4)) && c[5] == TreeSize(d.queues, Tree(g, 5));
  }

  lemma {:induction false} ExecKeeps(d: Data, a: Action)
    requires Inv(d) && Enabled(d, a)
    ensures Inv(Exec(d, a))
  {
    match a
    case AddAction(i, key) => AddRrKeeps(d, i, key);
    case DelAction(i) => DelRrKeeps(d, i);
    case ResortAction(i, key, front) => ResortKeeps(d, i, key, front);
    case ServedAction(g) => ServedOk(d, g);
    case ClassAction(i, prio, sync, idleWindow) =>
      QueueStep(d, i, d.queues[i].(prio := prio, sync := sync, idleWindow := idleWindow), ROOT, 0);
    case IsolationAction(on) =>
    case NewQueueAction(g) => NewQueueKeeps(d, g);
    case NewGroupAction(weight) => NewGroupKeeps(d, weight);
  }

  ghost predicate IsRun(d: Data, run: seq<Action>)
    requires Inv(d)
    decreases |run|
  {
    run == [] || (Enabled(d, run[0]) && (ExecKeeps(d, run[0]); IsRun(Exec(d, run[0]), run[1..])))
  }

  ghost function After(d: Data, run: seq<Action>): (r: Data)
    requires Inv(d) && IsRun(d, run)
    ensures Inv(r)
    decreases |run|
  {
    if run == [] then d else ExecKeeps(d, run[0]); After(Exec(d, run[0]), run[1..])
  }

  function Start(weight: nat): (d: Data)
    ensures Inv(d)
  {
    EmptySum();
    assert [EmptyGroup(weight)][..0] == [];
    Data([], [EmptyGroup(weight)], 0, 0, false, false)
  }

  /**
   In every reachable state a queue is on a service tree exactly if it is on_rr, each tree's count
   is its size, each group's nr_cfqq the sum of its seven counts, busy_queues the sum over groups
   and total_weight the sum over the groups on the device's tree; and no BUG_ON is reached.
   */
  lemma {:induction false} CountersAgree(weight: nat, run: seq<Action>)
    requires IsRun(Start(weight), run)
    ensures var d := After(Start(weight), run);
            && Shaped(d) && !d.bug
            && (forall i :: 0 <= i < |d.queues| ==> (d.queues[i].onRr <==> d.queues[i].tree.Some?))
            && (forall g, t :: 0 <= g < |d.groups| && 0 <= t < 7 ==>
                  d.groups[g].counts[t] == TreeSize(d.queues, Tree(g, t)))
            && (forall g :: 0 <= g < |d.groups| ==>
                  d.groups[g].nrCfqq == Sum(d.groups[g].counts) && (d.groups[g].onSt <==> d.groups[g].nrCfqq > 0))
            && d.busy == Queues(d.groups) && d.totalWeight == Weights(d.groups)
  {
    var d := After(Start(weight), run);
    assert NumbersOk(d, ROOT, 0) && DeviceOk(d);
  }

  // ---------- The object ----------

  class CfqData {
    var queues: seq<Cfqq>
    var groups: seq<Group>
    var busy: int
    var totalWeight: int
    var isolation: bool
    var bug: bool

    function View(): Data
      reads this
    {
      Data(queues, groups, busy, totalWeight, isolation, bug)
    }

    constructor (weight: nat)
      ensures View() == Start(weight)
    {
      queues, groups := [], [EmptyGroup(weight)];
      busy, totalWeight, isolation, bug := 0, 0, false, false;
    }

    /** cfq_group_service_tree_add */
    method GroupTreeAdd(g: nat)
      requires g < |groups|
      modifies `groups, `totalWeight
      ensures View() == GroupAdd(old(View()), g)
    {
      var grp := groups[g];
      grp := grp.(nrCfqq := grp.nrCfqq + 1);
      if !grp.onSt {
        grp := grp.(onSt := true);
        totalWeight := totalWeight + grp.weight;
      }
      groups := groups[g := grp];
    }

    /** cfq_group_service_tree_del */
    method GroupTreeDel(g: nat)
      requires g < |groups|
      modifies `groups, `totalWeight, `bug
      ensures View() == GroupDel(old(View()), g)
    {
      var grp := groups[g];
      bug := bug || grp.nrCfqq < 1;
      grp := grp.(nrCfqq := grp.nrCfqq - 1);
      if grp.nrCfqq == 0 {
        grp := grp.(onSt := false);
        totalWeight := totalWeight - grp.weight;
      }
      groups := groups[g := grp];
    }

    /** cfq_rb_erase */
    method TreeErase(i: nat)
      requires Shaped(View()) && i < |queues|
      modifies `groups, `queues
      ensures View() == Erase(old(View()), i)
    {
      var q := queues[i];
      if q.tree.Some? {
        var t := q.tree.value;
        var grp := groups[t.group];
        groups := groups[t.group := grp.(counts := grp.counts[t.index := grp.counts[t.index] - 1])];
        queues := queues[i := q.(tree := None)];
      }
    }

    /** The part of cfq_service_tree_add that moves the queue to another group. */
    method ChangeGroup(i: nat) returns (changed: bool)
      requires Shaped(View()) && i < |queues|
      modifies this
      ensures View() == Regroup(old(View()), i)
      ensures changed <==> Moves(old(View()), old(queues[i])) != Stay
    {
      var q := queues[i];
      if !isolation && Kind(q) == 1 && q.group != ROOT {
        if q.tree.Some? {
          GroupTreeDel(q.group);
        }
        queues := queues[i := q.(orig := Some(q.group), group := ROOT)];
        return true;
      }
      if !isolation && Kind(q) == 2 && q.orig.Some? {
        bug := bug || q.group != ROOT;
        if q.tree.Some? {
          GroupTreeDel(q.group);
        }
        queues := queues[i := q.(group := q.orig.value, orig := None)];
        return true;
      }
      return false;
    }

    /** cfq_service_tree_add */
    method ServiceTreeAdd(i: nat, key: int, front: bool)
      requires Shaped(View()) && i < |queues|
      modifies this
      ensures View() == TreeAdd(old(View()), i, key, front)
    {
      RegroupShaped(View(), i);
      var changed := ChangeGroup(i);
      var q := queues[i];
      if q.tree.Some? {
        if key == q.key && q.tree.value == TreeFor(q) {
          return;
        }
        TreeErase(i);
      }
      LinkNode(i, key);
      if (front || q.tree.Some?) && !changed {
        return;
      }
      GroupTreeAdd(q.group);
    }

    /** The node goes into the tree of its class. */
    method LinkNode(i: nat, key: int)
      requires Shaped(View()) && i < |queues|
      modifies `groups, `queues
      ensures View() == Link(old(View()), i, key)
    {
      var q := queues[i];
      var t := TreeFor(q);
      var grp := groups[t.group];
      groups := groups[t.group := grp.(counts := grp.counts[t.index := grp.counts[t.index] + 1])];
      queues := queues[i := q.(tree := Some(t), key := key)];
    }

    /** cfq_add_cfqq_rr */
    method AddToRr(i: nat, key: int)
      requires Shaped(View()) && i < |queues|
      modifies this
      ensures View() == AddRr(old(View()), i, key)
    {
      bug := bug || queues[i].onRr;
      queues := queues[i := queues[i].(onRr := true)];
      busy := busy + 1;
      ServiceTreeAdd(i, key, false);
    }

    /** cfq_del_cfqq_rr */
    method DelFromRr(i: nat)
      requires Shaped(View()) && i < |queues|
      modifies this
      ensures View() == DelRr(old(View()), i)
    {
      var g := queues[i].group;
      bug := bug || !queues[i].onRr;
      queues := queues[i := queues[i].(onRr := false)];
      TreeErase(i);
      GroupTreeDel(g);
      bug := bug || busy == 0;
      busy := busy - 1;
    }
  }
}
