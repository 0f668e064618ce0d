/**
 The memoisation graph handler of tests/test_simple_graph.py.

 A `GraphHandler` keeps the stack of calls in progress, the `parents` and
 `children` edge maps between call keys, and the `retvals` cache.  Reading a
 key records the edge from the caller on top of the stack and either answers
 from the cache or pushes the key and answers `Ellipsis`; storing a value
 caches it and pops the stack.  `Bump` builds a new handler in which the
 changed keys and everything that transitively called them are evicted.

 The edge maps are `defaultdict(set)` in the source: reading an absent key
 gives the empty set (`Edges`).  `GraphState` is the value of a handler's
 four fields; the pure functions on it specify the methods of the class.
 */
module MemoGraph {
  import opened PyObjects
  import opened CallKeys

  type Edges = map<Key, set<Key>>

  datatype GraphState = GraphState(stack: seq<Key>, parents: Edges, children: Edges, retvals: map<Key, Value>)

  /** A handler as its constructor leaves it. */
  function Fresh(): GraphState {
    GraphState([], map[], map[], map[])
  }

  /** `m[k]` on a `defaultdict(set)`, read without inserting. */
  function EdgesOf(m: Edges, k: Key): set<Key> {
    if k in m then m[k] else {}
  }

  /** Every recorded edge appears in both maps: `b in children[a]` exactly when `a in parents[b]`. */
  predicate Symmetric(s: GraphState) {
    && (forall a, b | a in s.children && b in s.children[a] :: a in EdgesOf(s.parents, b))
    && (forall a, b | b in s.parents && a in s.parents[b] :: b in EdgesOf(s.children, a))
  }

  function Top(stack: seq<Key>): Key
    requires stack != []
  {
    stack[|stack| - 1]
  }

  /** The edge from the caller on top of the stack to `key`, if a call is in progress. */
  function RecordEdge(s: GraphState, key: Key): (t: GraphState)
    ensures t.stack == s.stack && t.retvals == s.retvals
  {
    if s.stack == [] then s
    else
      var top := Top(s.stack);
      s.(children := s.children[top := EdgesOf(s.children, top) + {key}],
         parents := s.parents[key := EdgesOf(s.parents, key) + {top}])
  }

  /** `handler[key]`: the cached value, or `Ellipsis` after pushing `key` as a new call. */
  function Lookup(s: GraphState, key: Key): (r: (Value, GraphState))
  {
    var t := RecordEdge(s, key);
    if key in t.retvals then (t.retvals[key], t)
    else (Ellipsis, t.(stack := t.stack + [key]))
  }

  /**
   `handler[key] = value`: cache the value, then pop the stack.  The value is
   stored even when the pop fails with an IndexError on an empty stack.
   */
  function Store(s: GraphState, key: Key, value: Value): (r: (GraphState, Option<Value>))
  {
    var t := s.(retvals := s.retvals[key := value]);
    if t.stack == [] then (t, Some(IndexError("pop from empty list")))
    else (t.(stack := t.stack[..|t.stack| - 1]), None)
  }

  /* ---------- Properties of a lookup ---------- */

  /**
   A hit answers the cached value and leaves the stack alone; a miss answers
   `Ellipsis` and pushes the key.  The cache itself is never changed.
   */
  lemma LookupHitOrMiss(s: GraphState, key: Key)
    ensures var (v, t) := Lookup(s, key);
      && t.retvals == s.retvals
      && (key in s.retvals ==> v == s.retvals[key] && t.stack == s.stack)
      && (key !in s.retvals ==> v == Ellipsis && t.stack == s.stack + [key])
  {
  }

  /**
   A lookup adds exactly the edge from the top of the stack to `key`, and none
   at all when the stack is empty; edge entries are created only for the two
   endpoints of that edge.
   */
  lemma LookupRecordsEdge(s: GraphState, key: Key)
    ensures var t := Lookup(s, key).1;
      && (forall a, b :: b in EdgesOf(t.children, a) <==> b in EdgesOf(s.children, a) || (s.stack != [] && a == Top(s.stack) && b == key))
      && (forall a, b :: a in EdgesOf(t.parents, b) <==> a in EdgesOf(s.parents, b) || (s.stack != [] && a == Top(s.stack) && b == key))
      && t.children.Keys == s.children.Keys + (if s.stack == [] then {} else {Top(s.stack)})
      && t.parents.Keys == s.parents.Keys + (if s.stack == [] then {} else {key})
  {
  }

  /** Lookups keep the edge maps symmetric. */
  lemma LookupKeepsSymmetric(s: GraphState, key: Key)
    requires Symmetric(s)
    ensures Symmetric(Lookup(s, key).1)
  {
    var t := Lookup(s, key).1;
    LookupRecordsEdge(s, key);
    forall a, b | a in t.children && b in t.children[a] ensures a in EdgesOf(t.parents, b) {
      assert b in EdgesOf(t.children, a);
    }
    forall a, b | b in t.parents && a in t.parents[b] ensures b in EdgesOf(t.children, a) {
      assert a in EdgesOf(t.parents, b);
    }
  }

  /* ---------- Properties of a store ---------- */

  /**
   A store caches `value` under `key` and pops exactly the top entry of the
   stack, whatever key that entry is; on an empty stack the pop raises an
   IndexError after the value is cached.  The edges do not change.
   */
  lemma StoreCachesAndPops(s: GraphState, key: Key, value: Value)
    ensures var (t, err) := Store(s, key, value);
      && t.retvals == s.retvals[key := value]
      && t.parents == s.parents && t.children == s.children
      && (s.stack != [] ==> err.None? && t.stack + [Top(s.stack)] == s.stack)
      && (s.stack == [] ==> t.stack == [] && err.Some? && err.value.Exc? && err.value.cls == "IndexError")
  {
  }

  lemma StoreKeepsSymmetric(s: GraphState, key: Key, value: Value)
    requires Symmetric(s)
    ensures Symmetric(Store(s, key, value).0)
  {
  }

  /**
   A call that misses and then stores leaves the stack as it was, with the
   value cached, so a completed top-level call leaves the stack empty; the
   next lookup of the same key is a hit answering that value.
   */
  lemma {:induction false} MissThenStoreBalances(s: GraphState, key: Key, value: Value)
    requires key !in s.retvals
    ensures var t := Store(Lookup(s, key).1, key, value);
      && t.1.None?
      && t.0.stack == s.stack
      && t.0.retvals == s.retvals[key := value]
      && Lookup(t.0, key).0 == value
      && Lookup(t.0, key).1.stack == s.stack
  {
    var m := Lookup(s, key).1;
    assert m.stack == s.stack + [key];
    assert (s.stack + [key])[..|s.stack|] == s.stack;
  }

  /* ---------- Eviction ---------- */

  /** A set of keys that contains the recorded parents of each of its members. */
  ghost predicate Closed(parents: Edges, e: set<Key>) {
    forall k | k in e && k in parents :: parents[k] <= e
  }

  /** `k` is a transitive caller of (or one of) the `seeds`: it lies in every closed superset of them. */
  ghost predicate IsAncestor(parents: Edges, seeds: set<Key>, k: Key) {
    forall e: set<Key> | seeds <= e && Closed(parents, e) :: k in e
  }

  /** The keys an eviction can reach: the seeds and every recorded parent. */
  function Universe(parents: Edges, seeds: set<Key>): set<Key> {
    seeds + (set k, p | k in parents && p in parents[k] :: p)
  }

  /** The keys a bump evicts: `seeds` together with all their transitive callers. */
  ghost function Evicted(parents: Edges, seeds: set<Key>): set<Key> {
    set k | k in Universe(parents, seeds) && IsAncestor(parents, seeds, k)
  }

  /**
   The handler `bump(changes)` returns: an empty stack; no edge entry and no
   cached value for an evicted key; evicted keys removed from the parent sets
   that remain; the new values cached on top.
   */
  ghost function Bumped(s: GraphState, changes: map<Key, Value>): GraphState {
    var e := Evicted(s.parents, changes.Keys);
    GraphState([],
      map k | k in s.parents.Keys - e :: s.parents[k] - e,
      map k | k in s.children.Keys - e :: s.children[k],
      (s.retvals - e) + changes)
  }

  /** `Bumped` once its evicted set is known. */
  lemma BumpedBy(s: GraphState, changes: map<Key, Value>, e: set<Key>)
    requires Evicted(s.parents, changes.Keys) == e
    ensures Bumped(s, changes) == GraphState([], Unlinked(s.parents, e), Without(s.children, e), (s.retvals - e) + changes)
  {
  }

  lemma AncestorOfParent(parents: Edges, seeds: set<Key>, d: Key, p: Key)
    requires IsAncestor(parents, seeds, d)
    requires d in parents && p in parents[d]
    ensures IsAncestor(parents, seeds, p)
  {
    forall e: set<Key> | seeds <= e && Closed(parents, e) ensures p in e {
      assert d in e;
    }
  }

  /** A closed set of ancestors that covers the seeds is exactly the evicted set. */
  lemma EvictedIs(parents: Edges, seeds: set<Key>, d: set<Key>)
    requires seeds <= d && d <= Universe(parents, seeds)
    requires forall k | k in d :: IsAncestor(parents, seeds, k)
    requires Closed(parents, d)
    ensures Evicted(parents, seeds) == d
  {
    forall k | k in Evicted(parents, seeds) ensures k in d {
      assert IsAncestor(parents, seeds, k);
    }
  }

  /** The evicted set holds the changed keys and every recorded parent of its members, and nothing more than that requires. */
  lemma EvictedIsLeastClosed(parents: Edges, seeds: set<Key>)
    ensures seeds <= Evicted(parents, seeds)
    ensures Closed(parents, Evicted(parents, seeds))
    ensures forall e: set<Key> | seeds <= e && Closed(parents, e) :: Evicted(parents, seeds) <= e
  {
    var ev := Evicted(parents, seeds);
    forall k | k in seeds ensures k in ev {
      assert IsAncestor(parents, seeds, k);
    }
    forall k | k in ev && k in parents ensures parents[k] <= ev {
      forall p | p in parents[k] ensures p in ev {
        AncestorOfParent(parents, seeds, k, p);
      }
    }
  }

  /** Keys that are neither changed nor transitive callers of a changed key keep their cached outcome. */
  lemma BumpKeepsUnrelated(s: GraphState, changes: map<Key, Value>, k: Key)
    requires k !in Evicted(s.parents, changes.Keys)
    ensures k in Bumped(s, changes).retvals <==> k in s.retvals
    ensures k in s.retvals ==> Bumped(s, changes).retvals[k] == s.retvals[k]
    ensures EdgesOf(Bumped(s, changes).children, k) == EdgesOf(s.children, k)
  {
    EvictedIsLeastClosed(s.parents, changes.Keys);
  }

  /** Changed keys take their new values; every other evicted key is no longer cached. */
  lemma BumpAppliesChanges(s: GraphState, changes: map<Key, Value>)
    ensures forall k | k in changes :: Bumped(s, changes).retvals[k] == changes[k]
    ensures forall k | k in Evicted(s.parents, changes.Keys) && k !in changes :: k !in Bumped(s, changes).retvals
    ensures Bumped(s, changes).stack == []
  {
  }

  /**
   No evicted key keeps an edge entry, and no remaining parent or child set
   mentions one; an evicted key therefore has no parents or children.
   */
  lemma BumpSeversEvicted(s: GraphState, changes: map<Key, Value>)
    requires Symmetric(s)
    ensures var t := Bumped(s, changes);
      var e := Evicted(s.parents, changes.Keys);
      && (forall k | k in e :: k !in t.parents && k !in t.children)
      && (forall k | k in t.parents :: t.parents[k] !! e)
      && (forall k | k in t.children :: t.children[k] !! e)
  {
    var t := Bumped(s, changes);
    var e := Evicted(s.parents, changes.Keys);
    EvictedIsLeastClosed(s.parents, changes.Keys);
    forall k, c | k in t.children && c in t.children[k] ensures c !in e {
      assert c in s.children[k];
      assert k in EdgesOf(s.parents, c);
    }
  }

  /** The edge maps of a bumped handler are symmetric again. */
  lemma BumpKeepsSymmetric(s: GraphState, changes: map<Key, Value>)
    requires Symmetric(s)
    ensures Symmetric(Bumped(s, changes))
  {
    var t := Bumped(s, changes);
    var e := Evicted(s.parents, changes.Keys);
    BumpSeversEvicted(s, changes);
    forall a, b | a in t.children && b in t.children[a] ensures a in EdgesOf(t.parents, b) {
      assert b in s.children[a] && b !in e;
      assert a in EdgesOf(s.parents, b);
    }
    forall a, b | b in t.parents && a in t.parents[b] ensures b in EdgesOf(t.children, a) {
      assert a in s.parents[b] && a !in e;
      assert b in EdgesOf(s.children, a);
    }
  }

  /* ---------- The handler object ---------- */

  function Elements(xs: seq<Key>): set<Key> {
    set x | x in xs
  }

  /** The elements of a set in some order, each once, as iterating a Python set or dict yields them. */
  method ListOf(s: set<Key>) returns (xs: seq<Key>)
    ensures Elements(xs) == s
    ensures |xs| == |s|
    ensures forall i, j | 0 <= i < j < |xs| :: xs[i] != xs[j]
    ensures s == {} ==> xs == []
  {
    xs := [];
    var rest := s;
    while rest != {}
      invariant Elements(xs) + rest == s
      invariant Elements(xs) !! rest
      invariant |xs| + |rest| == |s|
      invariant forall i, j | 0 <= i < j < |xs| :: xs[i] != xs[j]
      invariant s == {} ==> xs == []
      decreases |rest|
    {
      var x :| x in rest;
      xs := xs + [x];
      rest := rest - {x};
    }
  }

  class GraphHandler {
    var stack: seq<Key>
    var parents: Edges
    var children: Edges
    var retvals: map<Key, Value>

    function State(): GraphState
      reads this
    {
      GraphState(stack, parents, children, retvals)
    }

    /** The invariant every handler keeps: its edge maps are symmetric. */
    predicate Valid()
      reads this
    {
      Symmetric(State())
    }

    constructor ()
      ensures State() == Fresh()
      ensures Valid()
    {
      stack := [];
      parents := map[];
      children := map[];
      retvals := map[];
    }

    /** `handler[key]`: record the edge from the caller, then answer a hit or push a miss. */
    method GetItem(key: Key) returns (v: Value)
      modifies this
      ensures (v, State()) == Lookup(old(State()), key)
      ensures old(Valid()) ==> Valid()
    {
      ghost var s := State();
      if |stack| > 0 {
        var top := stack[|stack| - 1];
        children := children[top := EdgesOf(children, top) + {key}];
        parents := parents[key := EdgesOf(parents, key) + {top}];
      }
      if key in retvals {
        v := retvals[key];
      } else {
        stack := stack + [key];
        v := Ellipsis;
      }
      if Symmetric(s) {
        LookupKeepsSymmetric(s, key);
      }
    }

    /** `handler[key] = value`: cache the value, then pop the stack, failing on an empty one. */
    method SetItem(key: Key, value: Value) returns (error: Option<Value>)
      modifies this
      ensures (State(), error) == Store(old(State()), key, value)
      ensures old(Valid()) ==> Valid()
    {
      retvals := retvals[key := value];
      if |stack| == 0 {
        error := Some(IndexError("pop from empty list"));
      } else {
        stack := stack[..|stack| - 1];
        error := None;
      }
    }

    /**
     `bump(changes)`: a new handler whose cache and edges are copies of this
     one's with the changed keys and all their transitive callers evicted and
     the changes applied.  This handler is left as it was.
     */
    method Bump(changes: map<Key, Value>) returns (h: GraphHandler)
      requires Valid()
      ensures fresh(h)
      ensures h.State() == Bumped(State(), changes)
      ensures h.Valid()
      ensures State() == old(State())
    {
      ghost var s := State();
      var parents', children', retvals' := Evict(State(), changes.Keys);
      // handler.retvals.update(changes)
      retvals' := retvals' + changes;
      h := new GraphHandler();
      h.retvals := retvals';
      h.children := children';
      h.parents := parents';
      BumpedBy(s, changes, Evicted(s.parents, changes.Keys));
      BumpKeepsSymmetric(s, changes);
    }
  }

  /**
   The sweep of `bump`: starting from copies of the maps of `s` and the list
   of changed keys, pop the parent entry, cached value and child entry of
   each listed key, append its parents to the list, and remove it from the
   parent sets of its children.  What remains is `s` with the evicted set
   removed.
   */
  method Evict(s: GraphState, seeds: set<Key>) returns (parents': Edges, children': Edges, retvals': map<Key, Value>)
    requires Symmetric(s)
    ensures parents' == Unlinked(s.parents, Evicted(s.parents, seeds))
    ensures children' == Without(s.children, Evicted(s.parents, seeds))
    ensures retvals' == s.retvals - Evicted(s.parents, seeds)
  {
    retvals' := s.retvals;
    children' := s.children;
    parents' := s.parents;
    var deps := ListOf(seeds);
    ghost var done: set<Key> := {};
    var i := 0;
    SweepStart(s.parents, seeds, deps);
    NothingDone(s);
    while i < |deps|
      invariant 0 <= i <= |deps|
      invariant done == Elements(deps[..i])
      invariant Sweeping(s.parents, seeds, deps, done)
      invariant parents' == Unlinked(s.parents, done)
      invariant children' == Without(s.children, done)
      invariant retvals' == s.retvals - done
      decreases |parents'.Keys|, |deps| - i
    {
      var dep := deps[i];
      // deps.extend(handler.parents.pop(dep, set()))
      var ps := EdgesOf(parents', dep);
      parents' := parents' - {dep};
      var more := ListOf(ps);
      // handler.retvals.pop(dep, None)
      retvals' := retvals' - {dep};
      // for child in handler.children.pop(dep, set()): handler.parents[child].remove(dep)
      var cs := EdgesOf(children', dep);
      children' := children' - {dep};
      SweepStep(s.parents, seeds, deps, i, done, more);
      ChildrenStillListParent(s, done, dep);
      DropStep(s, done, dep);
      parents' := RemoveParent(parents', dep, cs);
      UnlinkStep(s, done, dep, parents');
      deps := deps + more;
      done := done + {dep};
      i := i + 1;
    }
    assert deps[..i] == deps;
    EvictedIs(s.parents, seeds, done);
  }

  /** The parent entries left once the keys in `done` are evicted. */
  function Unlinked(parents: Edges, done: set<Key>): Edges {
    map k | k in parents.Keys - done :: parents[k] - done
  }

  /** The child entries left once the keys in `done` are evicted. */
  function Without(children: Edges, done: set<Key>): Edges {
    map k | k in children.Keys - done :: children[k]
  }

  /**
   The inner loop of the sweep: remove `dep` from the parent set of each of
   its children that still has an entry.  Each such set holds `dep`, so
   `set.remove` does not raise.
   */
  method RemoveParent(parents: Edges, dep: Key, cs: set<Key>) returns (p: Edges)
    requires forall c | c in cs && c in parents :: dep in parents[c]
    ensures p.Keys == parents.Keys
    ensures forall k | k in p :: p[k] == if k in cs then parents[k] - {dep} else parents[k]
  {
    p := parents;
    var rest := cs;
    while rest != {}
      invariant rest <= cs
      invariant p.Keys == parents.Keys
      invariant forall k | k in p :: p[k] == if k in cs - rest then parents[k] - {dep} else parents[k]
      decreases |rest|
    {
      var child :| child in rest;
      if child in p {
        assert dep in p[child];
        p := p[child := p[child] - {dep}];
      }
      rest := rest - {child};
    }
  }

  /** What the sweep knows of its list of deps after handling the keys in `done`. */
  ghost predicate Sweeping(parents: Edges, seeds: set<Key>, deps: seq<Key>, done: set<Key>) {
    && seeds <= Elements(deps) <= Universe(parents, seeds)
    && (forall d | d in deps :: IsAncestor(parents, seeds, d))
    && (forall d | d in done && d in parents :: parents[d] <= Elements(deps))
  }

  lemma SweepStart(parents: Edges, seeds: set<Key>, deps: seq<Key>)
    requires Elements(deps) == seeds
    ensures Sweeping(parents, seeds, deps, {})
  {
    forall d | d in deps ensures IsAncestor(parents, seeds, d) {
      assert d in seeds;
    }
  }

  /** One round of the sweep keeps `Sweeping`: the parents of `dep` join the list of deps. */
  lemma {:induction false} SweepStep(parents: Edges, seeds: set<Key>, deps: seq<Key>, i: nat, done: set<Key>, more: seq<Key>)
    requires i < |deps|
    requires done == Elements(deps[..i])
    requires Sweeping(parents, seeds, deps, done)
    requires Elements(more) == EdgesOf(Unlinked(parents, done), deps[i])
    ensures done + {deps[i]} == Elements((deps + more)[..i + 1])
    ensures Sweeping(parents, seeds, deps + more, done + {deps[i]})
    ensures more != [] ==> deps[i] in Unlinked(parents, done)
  {
    var dep := deps[i];
    var all := deps + more;
    var ps := EdgesOf(Unlinked(parents, done), dep);
    assert Elements(all) == Elements(deps) + ps;
    assert all[..i + 1] == deps[..i + 1] == deps[..i] + [dep];
    assert Elements(deps[..i + 1]) == done + {dep};
    assert done <= Elements(deps);
    if more != [] {
      assert more[0] in ps;
    }
    assert ps <= Universe(parents, seeds) by {
      forall d | d in ps ensures d in Universe(parents, seeds) {
        assert dep in parents && d in parents[dep];
      }
    }
    forall d | d in all ensures IsAncestor(parents, seeds, d) {
      if d in ps {
        AncestorOfParent(parents, seeds, dep, d);
      }
    }
    forall d | d in done + {dep} && d in parents ensures parents[d] <= Elements(all) {
      if d == dep && dep !in done {
        assert parents[d] <= ps + done;
      }
    }
  }

  /** Each child of an unevicted `dep` still lists `dep` among its parents. */
  lemma ChildrenStillListParent(s: GraphState, done: set<Key>, dep: Key)
    requires Symmetric(s)
    ensures var q := Unlinked(s.parents, done) - {dep};
      forall c | c in EdgesOf(Without(s.children, done), dep) && c in q :: dep in q[c]
  {
    var q := Unlinked(s.parents, done) - {dep};
    forall c | c in EdgesOf(Without(s.children, done), dep) && c in q ensures dep in q[c] {
      assert dep !in done && c in s.children[dep];
      assert dep in EdgesOf(s.parents, c);
    }
  }

  /** Removing `dep` from the parent sets of its children leaves the parent entries of the next evicted set. */
  lemma UnlinkStep(s: GraphState, done: set<Key>, dep: Key, p: Edges)
    requires Symmetric(s)
    requires var q := Unlinked(s.parents, done) - {dep};
      var cs := EdgesOf(Without(s.children, done), dep);
      && p.Keys == q.Keys
      && (forall k | k in p :: p[k] == if k in cs then q[k] - {dep} else q[k])
    ensures p == Unlinked(s.parents, done + {dep})
  {
    var q := Unlinked(s.parents, done) - {dep};
    var cs := EdgesOf(Without(s.children, done), dep);
    var target := Unlinked(s.parents, done + {dep});
    forall k | k in p ensures p[k] == target[k] {
      if dep in s.parents[k] && dep !in done {
        assert k in EdgesOf(s.children, dep);
      }
    }
  }

  /** Before the sweep handles any key, the copies equal the original maps. */
  lemma NothingDone(s: GraphState)
    ensures Unlinked(s.parents, {}) == s.parents
    ensures Without(s.children, {}) == s.children
    ensures s.retvals - {} == s.retvals
  {
    forall k | k in s.parents ensures s.parents[k] - {} == s.parents[k] {
    }
  }

  lemma DropStep(s: GraphState, done: set<Key>, dep: Key)
    ensures Without(s.children, done) - {dep} == Without(s.children, done + {dep})
    ensures (s.retvals - done) - {dep} == s.retvals - (done + {dep})
  {
  }
}
