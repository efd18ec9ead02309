/**
 Removing an algorithm: every instance that is built on it, directly or through other instances,
 is found by a depth-first search with an explicit stack and marked dead.
 */
module RemoveSpawns {
  import opened Wrappers

  // Algorithms and spawns are numbered.  users lists the spawns through which instances use an
  // algorithm; inst gives the instance a spawn belongs to, which is an algorithm itself.
  datatype Graph = Graph(users: map<nat, seq<nat>>, inst: map<nat, nat>)

  /** Every spawn belongs to an algorithm that has a list of users. */
  predicate Closed(g: Graph) {
    forall a, s :: a in g.users && s in g.users[a] ==> s in g.inst && g.inst[s] in g.users
  }

  /** A spawn is a list node, so it is in one place only. */
  predicate Unshared(g: Graph) {
    && (forall a, i, j :: a in g.users && 0 <= i < j < |g.users[a]| ==> g.users[a][i] != g.users[a][j])
    && (forall a, b, s :: a in g.users && b in g.users && a != b && s in g.users[a] ==> s !in g.users[b])
  }

  predicate Uses(g: Graph, a: nat, s: nat) {
    a in g.users && s in g.users[a] && s in g.inst
  }

  /** The spawns lead from algorithm a to an instance built on it. */
  predicate Path(g: Graph, a: nat, p: seq<nat>)
    decreases |p|
  {
    p != [] && Uses(g, a, p[0]) && (|p| > 1 ==> Path(g, g.inst[p[0]], p[1..]))
  }

  function End(g: Graph, a: nat, p: seq<nat>): nat
    requires Path(g, a, p)
    decreases |p|
  {
    if |p| == 1 then g.inst[p[0]] else End(g, g.inst[p[0]], p[1..])
  }

  /** Instance i is built on algorithm a. */
  ghost predicate BuiltOn(g: Graph, a: nat, i: nat) {
    exists p :: Path(g, a, p) && End(g, a, p) == i
  }

  // ---------- Paths ----------

  lemma {:induction false} DirectlyBuilt(g: Graph, a: nat, s: nat)
    requires Uses(g, a, s)
    ensures BuiltOn(g, a, g.inst[s])
  {
    assert Path(g, a, [s]) && End(g, a, [s]) == g.inst[s];
  }

  lemma {:induction false} PathGrows(g: Graph, a: nat, p: seq<nat>, s: nat)
    requires Path(g, a, p) && Uses(g, End(g, a, p), s)
    ensures Path(g, a, p + [s]) && End(g, a, p + [s]) == g.inst[s]
    decreases |p|
  {
    assert (p + [s])[0] == p[0];
    if |p| == 1 {
      assert (p + [s])[1..] == [s];
    } else {
      assert (p + [s])[1..] == p[1..] + [s];
      PathGrows(g, g.inst[p[0]], p[1..], s);
    }
  }

  lemma {:induction false} BuiltFurther(g: Graph, a: nat, x: nat, s: nat)
    requires BuiltOn(g, a, x) && Uses(g, x, s)
    ensures BuiltOn(g, a, g.inst[s])
  {
    var p :| Path(g, a, p) && End(g, a, p) == x;
    PathGrows(g, a, p, s);
  }

  /** A set that has the users of a and the users of its members has everything built on a. */
  lemma {:induction false} ClosedSetHasAll(g: Graph, a: nat, v: set<nat>, i: nat)
    requires BuiltOn(g, a, i)
    requires forall s :: Uses(g, a, s) ==> g.inst[s] in v
    requires forall x, s :: x in v && Uses(g, x, s) ==> g.inst[s] in v
    ensures i in v
  {
    var p :| Path(g, a, p) && End(g, a, p) == i;
    PathStays(g, a, v, p);
  }

  lemma {:induction false} PathStays(g: Graph, a: nat, v: set<nat>, p: seq<nat>)
    requires Path(g, a, p)
    requires forall s :: Uses(g, a, s) ==> g.inst[s] in v
    requires forall x, s :: x in v && Uses(g, x, s) ==> g.inst[s] in v
    ensures End(g, a, p) in v
    decreases |p|
  {
    if |p| > 1 {
      PathStays(g, g.inst[p[0]], v, p[1..]);
    }
  }

  // ---------- The search ----------

  // The lists the search works on: what is left of the users, the spawns of the removed algorithm
  // not taken yet, the stack, and the spawns that are done.
  datatype Search = Search(users: map<nat, seq<nat>>, top: seq<nat>, stack: seq<nat>, done: seq<nat>)

  predicate Taken(f: Search, s: nat) {
    s in f.stack || s in f.done
  }

  /** What is left of the lists is part of them, and what is missing has been taken. */
  predicate ListsOk(g: Graph, alg: nat, f: Search) {
    && f.users.Keys == g.users.Keys && alg in g.users && f.users[alg] == []
    && (forall s :: s in f.top ==> s in g.users[alg])
    && (forall s :: s in g.users[alg] ==> s in f.top || Taken(f, s))
    && (forall a, s :: a in f.users && s in f.users[a] ==> s in g.users[a])
    && (forall a, s :: a in g.users && a != alg && s in g.users[a] ==> s in f.users[a] || Taken(f, s))
  }

  /** Nothing waits that was taken, and nothing waits twice. */
  predicate PlacesOk(f: Search) {
    && (forall i, j :: 0 <= i < j < |f.top| ==> f.top[i] != f.top[j])
    && Unshared(Graph(f.users, map[]))
    && (forall a, s :: a in f.users && s in f.users[a] ==> s !in f.top && !Taken(f, s))
    && (forall s :: s in f.top ==> !Taken(f, s))
  }

  /** Only instances built on the algorithm are visited, and those that are done have no users left. */
  ghost predicate VisitedOk(g: Graph, alg: nat, f: Search)
    requires f.users.Keys == g.users.Keys
  {
    && (forall s :: Taken(f, s) ==> s in g.inst && g.inst[s] in g.users && BuiltOn(g, alg, g.inst[s]))
    && (forall s :: s in f.done ==> f.users[g.inst[s]] == [])
    && (forall a :: a in g.users && a != alg && !BuiltOn(g, alg, a) ==> f.users[a] == g.users[a])
  }

  ghost predicate Searching(g: Graph, alg: nat, f: Search) {
    Closed(g) && ListsOk(g, alg, f) && PlacesOk(f) && VisitedOk(g, alg, f)
  }

  /** The spawns the search has not taken. */
  function Untaken(g: Graph, f: Search): set<nat> {
    set s | s in g.inst && !Taken(f, s)
  }

  /** The search takes the first spawn of its current list. */
  function TakeTop(f: Search): Search
    requires f.top != []
  {
    f.(top := f.top[1..], stack := [f.top[0]] + f.stack)
  }

  function TakeUser(f: Search, a: nat): Search
    requires a in f.users && f.users[a] != []
  {
    f.(users := f.users[a := f.users[a][1..]], stack := [f.users[a][0]] + f.stack)
  }

  /** The spawn on top of the stack is done. */
  function Pop(f: Search): Search
    requires f.stack != []
  {
    f.(stack := f.stack[1..], done := [f.stack[0]] + f.done)
  }

  lemma {:induction false} ConsMembers(s: seq<nat>, x: nat)
    ensures forall y :: y in [x] + s <==> y == x || y in s
  {
  }

  lemma {:induction false} TailMembers(s: seq<nat>)
    requires s != [] && forall i, j :: 0 <= i < j < |s| ==> s[i] != s[j]
    ensures forall y :: y in s[1..] <==> y in s && y != s[0]
  {
    forall y | y in s && y != s[0]
      ensures y in s[1..]
    {
      var i :| 0 <= i < |s| && s[i] == y;
      assert s[1..][i - 1] == y;
    }
  }

  /** Where the spawns are after the first of top is taken. */
  lemma {:induction false} TakeTopMoves(f: Search)
    requires f.top != [] && PlacesOk(f)
    ensures forall y :: Taken(TakeTop(f), y) <==> y == f.top[0] || Taken(f, y)
    ensures forall y :: y in TakeTop(f).top <==> y in f.top && y != f.top[0]
  {
    TailMembers(f.top);
    ConsMembers(f.stack, f.top[0]);
  }

  lemma {:induction false} TakeTopKeeps(g: Graph, alg: nat, f: Search)
    requires Searching(g, alg, f) && f.top != []
    ensures Searching(g, alg, TakeTop(f)) && Untaken(g, TakeTop(f)) < Untaken(g, f)
  {
    TakeTopMoves(f);
    TakeTopPlaces(f);
    var s := f.top[0];
    assert Uses(g, alg, s);
    DirectlyBuilt(g, alg, s);
    assert ListsOk(g, alg, TakeTop(f));
    assert VisitedOk(g, alg, TakeTop(f));
    assert s in Untaken(g, f) && s !in Untaken(g, TakeTop(f));
  }

  lemma {:induction false} TakeTopPlaces(f: Search)
    requires f.top != [] && PlacesOk(f)
    ensures PlacesOk(TakeTop(f))
  {
    TakeTopMoves(f);
    assert f.top[0] in f.top;
    var f' := TakeTop(f);
    forall a, s | a in f'.users && s in f'.users[a]
      ensures s !in f'.top && !Taken(f', s)
    {
      assert s in f.users[a];
    }
  }

  /** Where the spawns are after the first user of a is taken. */
  lemma {:induction false} TakeUserMoves(f: Search, a: nat)
    requires a in f.users && f.users[a] != [] && PlacesOk(f)
    ensures forall y :: Taken(TakeUser(f, a), y) <==> y == f.users[a][0] || Taken(f, y)
    ensures forall y :: y in TakeUser(f, a).users[a] <==> y in f.users[a] && y != f.users[a][0]
    ensures forall b :: b in f.users && b != a ==> TakeUser(f, a).users[b] == f.users[b]
    ensures TakeUser(f, a).users.Keys == f.users.Keys
  {
    TailMembers(f.users[a]);
    ConsMembers(f.stack, f.users[a][0]);
  }

  lemma {:induction false} TakeUserPlaces(f: Search, a: nat)
    requires a in f.users && f.users[a] != [] && PlacesOk(f)
    ensures PlacesOk(TakeUser(f, a))
  {
    TakeUserMoves(f, a);
  }

  lemma {:induction false} TakeUserLists(g: Graph, alg: nat, f: Search, a: nat)
    requires ListsOk(g, alg, f) && PlacesOk(f) && a in f.users && f.users[a] != []
    ensures ListsOk(g, alg, TakeUser(f, a))
  {
    TakeUserMoves(f, a);
  }

  lemma {:induction false} TakeUserVisited(g: Graph, alg: nat, f: Search, a: nat)
    requires Searching(g, alg, f) && a in f.users && f.users[a] != [] && BuiltOn(g, alg, a)
    ensures ListsOk(g, alg, TakeUser(f, a)) && VisitedOk(g, alg, TakeUser(f, a))
  {
    TakeUserLists(g, alg, f, a);
    TakeUserMoves(f, a);
    var s := f.users[a][0];
    assert Uses(g, a, s);
    BuiltFurther(g, alg, a, s);
  }

  lemma {:induction false} TakeUserKeeps(g: Graph, alg: nat, f: Search, a: nat)
    requires Searching(g, alg, f) && a in f.users && f.users[a] != [] && BuiltOn(g, alg, a)
    ensures Searching(g, alg, TakeUser(f, a)) && Untaken(g, TakeUser(f, a)) < Untaken(g, f)
  {
    TakeUserVisited(g, alg, f, a);
    TakeUserPlaces(f, a);
    TakeUserMoves(f, a);
    var s := f.users[a][0];
    assert s in Untaken(g, f) && s !in Untaken(g, TakeUser(f, a));
  }

  lemma {:induction false} PopMoves(f: Search)
    requires f.stack != []
    ensures forall y :: Taken(Pop(f), y) <==> Taken(f, y)
    ensures forall y :: y in Pop(f).done <==> y == f.stack[0] || y in f.done
  {
    assert f.stack == [f.stack[0]] + f.stack[1..];
    ConsMembers(f.done, f.stack[0]);
    ConsMembers(f.stack[1..], f.stack[0]);
  }

  lemma {:induction false} PopKeeps(g: Graph, alg: nat, f: Search)
    requires Searching(g, alg, f) && f.stack != []
    requires f.stack[0] in g.inst && g.inst[f.stack[0]] in f.users && f.users[g.inst[f.stack[0]]] == []
    ensures Searching(g, alg, Pop(f)) && Untaken(g, Pop(f)) == Untaken(g, f)
  {
    PopMoves(f);
    assert ListsOk(g, alg, Pop(f)) && PlacesOk(Pop(f));
    assert VisitedOk(g, alg, Pop(f));
  }

  // ---------- The beginning and the end ----------

  /** All the users of the algorithm wait in top. */
  function Begin(g: Graph, alg: nat): Search
    requires alg in g.users
  {
    Search(g.users[alg := []], Reverse(g.users[alg]), [], [])
  }

  lemma {:induction false} BeginSearches(g: Graph, alg: nat)
    requires Closed(g) && Unshared(g) && alg in g.users
    ensures Searching(g, alg, Begin(g, alg))
  {
    var f := Begin(g, alg);
    ReverseMembers(g.users[alg]);
    forall i, j | 0 <= i < j < |f.top|
      ensures f.top[i] != f.top[j]
    {
      ReverseAt(g.users[alg], i);
      ReverseAt(g.users[alg], j);
    }
    assert ListsOk(g, alg, f);
    assert PlacesOk(f);
  }

  /** The instances that were visited. */
  function Visited(g: Graph, f: Search): set<nat> {
    set s | s in f.done && s in g.inst :: g.inst[s]
  }

  lemma {:induction false} VisitedIsMarked(g: Graph, f: Search)
    requires forall s :: s in f.done ==> s in g.inst
    ensures Visited(g, f) == set s | s in f.done :: g.inst[s]
  {
  }

  lemma {:induction false} VisitedBy(g: Graph, f: Search, i: nat) returns (s: nat)
    requires i in Visited(g, f)
    ensures s in f.done && s in g.inst && g.inst[s] == i && Taken(f, s)
  {
    s :| s in f.done && s in g.inst && g.inst[s] == i;
  }

  lemma {:induction false} VisitedBuilt(g: Graph, alg: nat, f: Search, i: nat)
    requires Searching(g, alg, f) && i in Visited(g, f)
    ensures BuiltOn(g, alg, i) && i in f.users && f.users[i] == []
  {
    var s := VisitedBy(g, f, i);
  }

  lemma {:induction false} FirstUserVisited(g: Graph, alg: nat, f: Search, s: nat)
    requires ListsOk(g, alg, f) && f.stack == [] && f.top == [] && Uses(g, alg, s)
    ensures g.inst[s] in Visited(g, f)
  {
    assert Taken(f, s);
  }

  lemma {:induction false} NextUserVisited(g: Graph, alg: nat, f: Search, x: nat, s: nat)
    requires Searching(g, alg, f) && f.stack == [] && f.top == [] && x in Visited(g, f) && Uses(g, x, s)
    ensures g.inst[s] in Visited(g, f)
  {
    VisitedBuilt(g, alg, f, x);
    assert Taken(f, s);
  }

  lemma {:induction false} BuiltIsVisited(g: Graph, alg: nat, f: Search, i: nat)
    requires Searching(g, alg, f) && f.stack == [] && f.top == [] && BuiltOn(g, alg, i)
    ensures i in Visited(g, f)
  {
    forall s | Uses(g, alg, s)
      ensures g.inst[s] in Visited(g, f)
    {
      FirstUserVisited(g, alg, f, s);
    }
    forall x, s | x in Visited(g, f) && Uses(g, x, s)
      ensures g.inst[s] in Visited(g, f)
    {
      NextUserVisited(g, alg, f, x, s);
    }
    ClosedSetHasAll(g, alg, Visited(g, f), i);
  }

  /** When nothing waits, the visited instances are exactly those built on the algorithm. */
  lemma {:induction false} SearchComplete(g: Graph, alg: nat, f: Search)
    requires Searching(g, alg, f) && f.stack == [] && f.top == []
    ensures forall i :: i in Visited(g, f) <==> BuiltOn(g, alg, i)
    ensures forall i :: i in Visited(g, f) ==> i in f.users && f.users[i] == []
    ensures forall a :: a in f.users && a != alg && a !in Visited(g, f) ==> f.users[a] == g.users[a]
  {
    forall i
      ensures i in Visited(g, f) <==> BuiltOn(g, alg, i)
    {
      if i in Visited(g, f) {
        VisitedBuilt(g, alg, f, i);
      } else if BuiltOn(g, alg, i) {
        BuiltIsVisited(g, alg, f, i);
      }
    }
    forall i | i in Visited(g, f)
      ensures i in f.users && f.users[i] == []
    {
      VisitedBuilt(g, alg, f, i);
    }
  }

  /** The spawns taken so far belong to other instances than the algorithm itself. */
  predicate Elsewhere(g: Graph, alg: nat, f: Search) {
    forall s :: Taken(f, s) && s in g.inst ==> g.inst[s] != alg
  }

  lemma {:induction false} NotBuiltOnItself(g: Graph, alg: nat, f: Search)
    requires Searching(g, alg, f) && f.stack == [] && f.top == [] && Elsewhere(g, alg, f)
    ensures !BuiltOn(g, alg, alg)
  {
    SearchComplete(g, alg, f);
    forall s | s in f.done && s in g.inst
      ensures g.inst[s] != alg
    {
      assert Taken(f, s);
    }
  }

  // ---------- The object ----------

  class Algorithms {
    var users: map<nat, seq<nat>>
    const inst: map<nat, nat>
    var dead: set<nat>
    // Instances that are linked in the list of their template, and those whose template can be held.
    var hashed: set<nat>
    const held: set<nat>
    // Instances handed over for destruction.
    var removed: seq<nat>

    function Deps(): Graph
      reads this
    {
      Graph(users, inst)
    }

    constructor (users: map<nat, seq<nat>>, inst: map<nat, nat>, dead: set<nat>, hashed: set<nat>, held: set<nat>)
      ensures Deps() == Graph(users, inst) && this.dead == dead && this.hashed == hashed && this.held == held
      ensures removed == []
    {
      this.users, this.inst, this.dead, this.hashed, this.held, this.removed := users, inst, dead, hashed, held, [];
    }

    /** The first loop of crypto_remove_spawns: each user is moved to the head of top. */
    method TakeUsers(alg: nat) returns (top: seq<nat>)
      requires alg in users
      modifies `users
      ensures Search(users, top, [], []) == Begin(old(Deps()), alg)
    {
      top := [];
      ghost var all := users[alg];
      while users[alg] != []
        invariant alg in users && users == old(users)[alg := users[alg]]
        invariant Reverse(users[alg]) + top == Reverse(all)
        decreases |users[alg]|
      {
        var spawn := users[alg][0];
        users := users[alg := users[alg][1..]];
        top := [spawn] + top;
      }
    }

    /** The inner loop of crypto_remove_spawns: down the users until there are none. */
    method Descend(alg: nat, stack: seq<nat>, top: seq<nat>, done: seq<nat>, ghost g: Graph)
      returns (stack': seq<nat>, top': seq<nat>, bug: bool)
      requires inst == g.inst
      requires Searching(g, alg, Search(users, top, stack, done)) && Elsewhere(g, alg, Search(users, top, stack, done))
      modifies `users
      ensures Searching(g, alg, Search(users, top', stack', done))
      ensures bug ==> BuiltOn(g, alg, alg)
      ensures !bug ==> Elsewhere(g, alg, Search(users, top', stack', done))
      ensures !bug ==> (stack' == [] ==> top' == [])
      ensures !bug && stack' != [] ==>
                stack'[0] in inst && inst[stack'[0]] in users && users[inst[stack'[0]]] == []
      ensures var left := Untaken(g, old(Search(users, top, stack, done)));
              var left' := Untaken(g, Search(users, top', stack', done));
              left' < left || (left' == left && stack' == stack)
    {
      stack', top', bug := stack, top, false;
      ghost var f := Search(users, top, stack, done);
      while true
        invariant f == Search(users, top', stack', done) && Searching(g, alg, f) && Elsewhere(g, alg, f) && !bug
        invariant Untaken(g, f) < old(Untaken(g, Search(users, top, stack, done)))
                  || (Untaken(g, f) == old(Untaken(g, Search(users, top, stack, done))) && stack' == stack)
        decreases Untaken(g, f)
      {
        var spawns: seq<nat>;
        if stack' == [] {
          spawns := top';
        } else {
          assert Taken(f, stack'[0]);
          spawns := users[inst[stack'[0]]];
        }
        if spawns == [] {
          return;
        }
        var spawn := spawns[0];
        if stack' == [] {
          TakeTopKeeps(g, alg, f);
          assert Taken(TakeTop(f), spawn);
          if inst[spawn] == alg {
            return stack', top', true;
          }
          TakeTopMoves(f);
          f := TakeTop(f);
          top' := top'[1..];
        } else {
          var i := inst[stack'[0]];
          TakeUserKeeps(g, alg, f, i);
          assert Taken(TakeUser(f, i), spawn);
          if inst[spawn] == alg {
            return stack', top', true;
          }
          TakeUserMoves(f, i);
          f := TakeUser(f, i);
          users := users[i := users[i][1..]];
        }
        stack' := [spawn] + stack';
      }
    }

    /** The search of crypto_remove_spawns. */
    method FindAll(alg: nat) returns (done: seq<nat>, bug: bool)
      requires alg in users && Closed(Deps()) && Unshared(Deps())
      modifies `users
      ensures bug <==> BuiltOn(old(Deps()), alg, alg)
      ensures !bug ==> var f := Search(users, [], [], done); Searching(old(Deps()), alg, f)
    {
      ghost var g := Deps();
      var top := TakeUsers(alg);
      var stack: seq<nat> := [];
      done, bug := [], false;
      BeginSearches(g, alg);
      while true
        invariant Searching(g, alg, Search(users, top, stack, done))
        invariant Elsewhere(g, alg, Search(users, top, stack, done))
        decreases Untaken(g, Search(users, top, stack, done)), |stack|
      {
        stack, top, bug := Descend(alg, stack, top, done, g);
        if bug {
          return;
        }
        if stack == [] {
          NotBuiltOnItself(g, alg, Search(users, top, stack, done));
          return;
        }
        PopKeeps(g, alg, Search(users, top, stack, done));
        PopMoves(Search(users, top, stack, done));
        stack, done := stack[1..], [stack[0]] + done;
      }
    }

    /** crypto_remove_spawn; true is the BUG_ON for an instance that still has users. */
    method MarkDead(spawn: nat) returns (bug: bool)
      requires spawn in inst && inst[spawn] in users
      modifies `dead, `hashed, `removed
      ensures var i := inst[spawn];
              && dead == old(dead) + {i}
              && (if i !in old(dead) && i in old(hashed) && i in held
                  then hashed == old(hashed) - {i} && removed == [i] + old(removed) && bug == (users[i] != [])
                  else hashed == old(hashed) && removed == old(removed) && !bug)
    {
      var i := inst[spawn];
      bug := false;
      if i in dead {
        assert dead == dead + {i};
        return;
      }
      dead := dead + {i};
      if i !in hashed || i !in held {
        return;
      }
      removed := [i] + removed;
      hashed := hashed - {i};
      bug := users[i] != [];
    }

    /** The last loop of crypto_remove_spawns, over the spawns that are done; true is a BUG_ON on its way. */
    method MarkAll(done: seq<nat>) returns (bug: bool)
      requires forall s :: s in done ==> s in inst && inst[s] in users && users[inst[s]] == []
      modifies `dead, `hashed, `removed
      ensures !bug
      ensures dead == old(dead) + set s | s in done :: inst[s]
      ensures forall i :: i in removed <==>
                i in old(removed) || (i in dead && i !in old(dead) && i in old(hashed) && i in held)
    {
      bug := false;
      assert done[..0] == [];
      for k := 0 to |done|
        invariant !bug
        invariant dead == old(dead) + set s | s in done[..k] :: inst[s]
        invariant forall i :: i in old(hashed) && i !in dead ==> i in hashed
        invariant hashed <= old(hashed)
        invariant forall i :: i in removed <==>
                    i in old(removed) || (i in dead && i !in old(dead) && i in old(hashed) && i in held)
      {
        assert done[..k + 1] == done[..k] + [done[k]];
        var hit := MarkDead(done[k]);
        bug := bug || hit;
      }
      assert done[..|done|] == done;
    }

    /** crypto_remove_spawns with no replacement algorithm; true is any BUG_ON, of the search or of the removals. */
    method Remove(alg: nat) returns (bug: bool)
      requires alg in users && Closed(Deps()) && Unshared(Deps())
      modifies `users, `dead, `hashed, `removed
      ensures bug <==> BuiltOn(old(Deps()), alg, alg)
      ensures !bug ==> forall i :: i in dead <==> i in old(dead) || BuiltOn(old(Deps()), alg, i)
      ensures !bug ==> users.Keys == old(users).Keys
      ensures !bug ==> forall a :: a in users ==>
                users[a] == if a == alg || BuiltOn(old(Deps()), alg, a) then [] else old(users)[a]
      ensures !bug ==> forall i :: i in removed <==>
                i in old(removed)
                || (BuiltOn(old(Deps()), alg, i) && i !in old(dead) && i in old(hashed) && i in held)
    {
      ghost var g := Deps();
      var done;
      done, bug := FindAll(alg);
      if bug {
        return;
      }
      ghost var f := Search(users, [], [], done);
      SearchComplete(g, alg, f);
      forall s | s in done
        ensures s in inst && inst[s] in users && users[inst[s]] == []
      {
        assert Taken(f, s);
      }
      bug := MarkAll(done);
      VisitedIsMarked(g, f);
    }
  }
}
