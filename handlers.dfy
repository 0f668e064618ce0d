/**
 The handler protocol of graphty and its combinators.

 A handler answers `handler[key]` with a cached value or the sentinel
 `Ellipsis`, and receives `handler[key] = value` when a call completes.
 The combinators `Handler` (pass-through to `next`), `NullHandler` and
 `CompositeHandler` hold nothing but the handlers they were built with, so
 they are values here; the handlers with state are objects: a
 `GraphHandler`, or a plain cache such as `defaultdict(lambda: Ellipsis)`
 (`DictCache`).

 `Query` and `Assign` give the meaning of a read and a write over a `World`,
 the states of all stateful handlers; the methods `Get` and `Put` perform
 them on the objects and are proved to agree with them.
 */
module Handlers {
  import opened PyObjects
  import opened CallKeys
  import opened MemoGraph

  /**
   A dict used as a handler, `defaultdict(lambda: Ellipsis)`: reading an
   absent key answers `Ellipsis` and inserts it.
   */
  class DictCache {
    var entries: map<Key, Value>

    constructor ()
      ensures entries == map[]
    {
      entries := map[];
    }

    /** `cache[key]`: answers and updates the entries as `DefaultRead` says. */
    method GetItem(key: Key) returns (v: Value)
      modifies this
      ensures (v, entries) == DefaultRead(old(entries), key)
    {
      if key in entries {
        v := entries[key];
      } else {
        entries := entries[key := Ellipsis];
        v := Ellipsis;
      }
    }

    method SetItem(key: Key, value: Value)
      modifies this
      ensures entries == old(entries)[key := value]
    {
      entries := entries[key := value];
    }

    /** `key in cache`. */
    method Contains(key: Key) returns (b: bool)
      ensures b <==> key in entries
    {
      b := key in entries;
    }
  }

  /**
   A read of a `defaultdict(lambda: Ellipsis)`: the answer and the new
   entries.  Afterwards the key is present with the value read; a key that
   was present keeps its entry and nothing changes; an absent key reads as
   `Ellipsis`, and only that entry is added.
   */
  function DefaultRead(entries: map<Key, Value>, key: Key): (r: (Value, map<Key, Value>))
    ensures key in r.1 && r.1[key] == r.0
    ensures key in entries ==> r == (entries[key], entries)
    ensures key !in entries ==> r.0 == Ellipsis
    ensures Padded(entries, r.1, key)
  {
    if key in entries then (entries[key], entries) else (Ellipsis, entries[key := Ellipsis])
  }

  /** `e'` is `e`, or `e` with the absent `key` added as `Ellipsis`: what a read may do to a dict handler. */
  predicate Padded(e: map<Key, Value>, e': map<Key, Value>, key: Key) {
    e' == e || (key !in e && e' == e[key := Ellipsis])
  }

  datatype Handler =
    | BaseHandler(next: Option<Handler>)     // src/graphty/handler.py: forwards to `next`
    | NullHandler(next: Option<Handler>)     // src/graphty/null.py: ignores everything
    | CompositeHandler(handlers: seq<Handler>)
    | Graph(graph: GraphHandler)
    | Cache(cache: DictCache)

  /** The states of the stateful handlers. */
  datatype World = World(graphs: map<GraphHandler, GraphState>, caches: map<DictCache, map<Key, Value>>)

  /* ---------- The stateful handlers a handler reaches ---------- */

  // A null handler never consults its `next`, so it reaches nothing.

  function Graphs(h: Handler): set<GraphHandler>
    decreases h, 1
  {
    match h
    case BaseHandler(next) => if next.Some? then Graphs(next.value) else {}
    case NullHandler(_) => {}
    case CompositeHandler(hs) => GraphsFrom(hs, 0)
    case Graph(g) => {g}
    case Cache(_) => {}
  }

  function GraphsFrom(hs: seq<Handler>, i: nat): set<GraphHandler>
    requires i <= |hs|
    decreases hs, |hs| - i
  {
    if i == |hs| then {} else Graphs(hs[i]) + GraphsFrom(hs, i + 1)
  }

  function Caches(h: Handler): set<DictCache>
    decreases h, 1
  {
    match h
    case BaseHandler(next) => if next.Some? then Caches(next.value) else {}
    case NullHandler(_) => {}
    case CompositeHandler(hs) => CachesFrom(hs, 0)
    case Graph(_) => {}
    case Cache(c) => {c}
  }

  function CachesFrom(hs: seq<Handler>, i: nat): set<DictCache>
    requires i <= |hs|
    decreases hs, |hs| - i
  {
    if i == |hs| then {} else Caches(hs[i]) + CachesFrom(hs, i + 1)
  }

  predicate Covers(h: Handler, w: World) {
    Graphs(h) <= w.graphs.Keys && Caches(h) <= w.caches.Keys
  }

  predicate CoversFrom(hs: seq<Handler>, i: nat, w: World)
    requires i <= |hs|
  {
    GraphsFrom(hs, i) <= w.graphs.Keys && CachesFrom(hs, i) <= w.caches.Keys
  }

  /* ---------- Reads ---------- */

  /**
   `h[key]`.  A pass-through handler answers what its `next` answers, or
   `Ellipsis` without one; a null handler always answers `Ellipsis`; a
   composite asks its handlers in order and answers the first result that is
   not `Ellipsis`.  A graph handler records the lookup; a dict cache asked
   for an absent key inserts `Ellipsis` under it.
   */
  function Query(h: Handler, w: World, key: Key): (r: (Value, World))
    requires Covers(h, w)
    ensures r.1.graphs.Keys == w.graphs.Keys && r.1.caches.Keys == w.caches.Keys
    ensures forall c | c in w.caches :: Padded(w.caches[c], r.1.caches[c], key)
    ensures Graphs(h) == {} ==> r.1.graphs == w.graphs
    ensures Caches(h) == {} ==> r.1.caches == w.caches
    ensures forall g | g in w.graphs && g !in Graphs(h) :: r.1.graphs[g] == w.graphs[g]
    ensures forall c | c in w.caches && c !in Caches(h) :: r.1.caches[c] == w.caches[c]
    decreases h, 1
  {
    match h
    case BaseHandler(next) => if next.Some? then Query(next.value, w, key) else (Ellipsis, w)
    case NullHandler(_) => (Ellipsis, w)
    case CompositeHandler(hs) => QueryFrom(hs, 0, w, key)
    case Graph(g) =>
      var (v, s) := Lookup(w.graphs[g], key);
      (v, w.(graphs := w.graphs[g := s]))
    case Cache(c) =>
      var (v, e) := DefaultRead(w.caches[c], key);
      (v, w.(caches := w.caches[c := e]))
  }

  /** The first result other than `Ellipsis` among `hs[i..]`, asked in order. */
  function QueryFrom(hs: seq<Handler>, i: nat, w: World, key: Key): (r: (Value, World))
    requires i <= |hs| && CoversFrom(hs, i, w)
    ensures r.1.graphs.Keys == w.graphs.Keys && r.1.caches.Keys == w.caches.Keys
    ensures forall c | c in w.caches :: Padded(w.caches[c], r.1.caches[c], key)
    ensures GraphsFrom(hs, i) == {} ==> r.1.graphs == w.graphs
    ensures CachesFrom(hs, i) == {} ==> r.1.caches == w.caches
    ensures forall g | g in w.graphs && g !in GraphsFrom(hs, i) :: r.1.graphs[g] == w.graphs[g]
    ensures forall c | c in w.caches && c !in CachesFrom(hs, i) :: r.1.caches[c] == w.caches[c]
    decreases hs, |hs| - i
  {
    if i == |hs| then (Ellipsis, w)
    else
      var (v, w') := Query(hs[i], w, key);
      if v != Ellipsis then (v, w') else QueryFrom(hs, i + 1, w', key)
  }

  /* ---------- Writes ---------- */

  /**
   `h[key] = value`.  A pass-through handler writes into its `next`, a null
   handler does nothing, a composite writes into each of its handlers in
   order.  A graph handler's write raises when its stack is empty; the error
   stops a composite's loop.
   */
  function Assign(h: Handler, w: World, key: Key, value: Value): (r: (World, Option<Value>))
    requires Covers(h, w)
    ensures r.0.graphs.Keys == w.graphs.Keys && r.0.caches.Keys == w.caches.Keys
    ensures Graphs(h) == {} ==> r.1.None?
    decreases h, 1
  {
    match h
    case BaseHandler(next) => if next.Some? then Assign(next.value, w, key, value) else (w, None)
    case NullHandler(_) => (w, None)
    case CompositeHandler(hs) => AssignFrom(hs, 0, w, key, value)
    case Graph(g) =>
      var (s, err) := Store(w.graphs[g], key, value);
      (w.(graphs := w.graphs[g := s]), err)
    case Cache(c) => (w.(caches := w.caches[c := w.caches[c][key := value]]), None)
  }

  function AssignFrom(hs: seq<Handler>, i: nat, w: World, key: Key, value: Value): (r: (World, Option<Value>))
    requires i <= |hs| && CoversFrom(hs, i, w)
    ensures r.0.graphs.Keys == w.graphs.Keys && r.0.caches.Keys == w.caches.Keys
    ensures GraphsFrom(hs, i) == {} ==> r.1.None?
    decreases hs, |hs| - i
  {
    if i == |hs| then (w, None)
    else
      var (w', err) := Assign(hs[i], w, key, value);
      if err.Some? then (w', err) else AssignFrom(hs, i + 1, w', key, value)
  }

  /* ---------- Reads and writes on the objects ---------- */

  /** The present states of the given stateful handlers. */
  function Snap(gs: set<GraphHandler>, cs: set<DictCache>): (w: World)
    reads gs, cs
    ensures w.graphs.Keys == gs && w.caches.Keys == cs
  {
    World(map g | g in gs :: g.State(), map c | c in cs :: c.entries)
  }

  /**
   `h[key]` on the objects: the answer and the new states of the stateful
   handlers are those `Query` gives.  `gs` and `cs` are any sets of handlers
   that include those `h` reaches; only the handlers `h` reaches change.
   */
  method Get(h: Handler, key: Key, ghost gs: set<GraphHandler>, ghost cs: set<DictCache>) returns (v: Value)
    requires Graphs(h) <= gs && Caches(h) <= cs
    modifies Graphs(h), Caches(h)
    ensures (v, Snap(gs, cs)) == Query(h, old(Snap(gs, cs)), key)
    decreases h, 1
  {
    match h
    case BaseHandler(next) =>
      if next.Some? {
        v := Get(next.value, key, gs, cs);
      } else {
        v := Ellipsis;
      }
    case NullHandler(_) =>
      v := Ellipsis;
    case CompositeHandler(hs) =>
      v := GetFirst(hs, key, gs, cs);
    case Graph(g) =>
      v := GetGraph(g, key, gs, cs);
    case Cache(c) =>
      v := GetCache(c, key, gs, cs);
  }

  /** `Get` on a dict cache: only that cache's entries change. */
  method GetCache(c: DictCache, key: Key, ghost gs: set<GraphHandler>, ghost cs: set<DictCache>) returns (v: Value)
    requires c in cs
    modifies c
    ensures (v, Snap(gs, cs)) == Query(Cache(c), old(Snap(gs, cs)), key)
  {
    ghost var w0 := Snap(gs, cs);
    v := c.GetItem(key);
    assert Snap(gs, cs).caches == w0.caches[c := c.entries];
    assert Snap(gs, cs) == w0.(caches := w0.caches[c := c.entries]);
  }

  /** `Get` on a graph handler: only that handler's state changes. */
  method GetGraph(g: GraphHandler, key: Key, ghost gs: set<GraphHandler>, ghost cs: set<DictCache>) returns (v: Value)
    requires g in gs
    modifies g
    ensures (v, Snap(gs, cs)) == Query(Graph(g), old(Snap(gs, cs)), key)
  {
    ghost var w0 := Snap(gs, cs);
    v := g.GetItem(key);
    assert Snap(gs, cs).graphs == w0.graphs[g := g.State()];
    assert Snap(gs, cs) == w0.(graphs := w0.graphs[g := g.State()]);
  }

  /** `CompositeHandler.__getitem__`: ask each handler in turn and stop at the first answer. */
  method GetFirst(hs: seq<Handler>, key: Key, ghost gs: set<GraphHandler>, ghost cs: set<DictCache>) returns (v: Value)
    requires GraphsFrom(hs, 0) <= gs && CachesFrom(hs, 0) <= cs
    modifies GraphsFrom(hs, 0), CachesFrom(hs, 0)
    ensures (v, Snap(gs, cs)) == QueryFrom(hs, 0, old(Snap(gs, cs)), key)
    decreases hs, 1
  {
    ghost var w0 := Snap(gs, cs);
    var j := 0;
    while j < |hs|
      invariant 0 <= j <= |hs|
      invariant GraphsFrom(hs, j) <= GraphsFrom(hs, 0) && CachesFrom(hs, j) <= CachesFrom(hs, 0)
      invariant QueryFrom(hs, 0, w0, key) == QueryFrom(hs, j, Snap(gs, cs), key)
    {
      LeavesStep(hs, j);
      var r := GetAt(hs, j, key, gs, cs);
      if r != Ellipsis {
        return r;
      }
      j := j + 1;
    }
    v := Ellipsis;
  }

  /** One turn of `GetFirst`'s loop: ask `hs[j]`, which either answers or leaves the rest to ask. */
  method GetAt(hs: seq<Handler>, j: nat, key: Key, ghost gs: set<GraphHandler>, ghost cs: set<DictCache>) returns (r: Value)
    requires j < |hs| && GraphsFrom(hs, j) <= gs && CachesFrom(hs, j) <= cs
    modifies Graphs(hs[j]), Caches(hs[j])
    ensures r != Ellipsis ==> (r, Snap(gs, cs)) == QueryFrom(hs, j, old(Snap(gs, cs)), key)
    ensures r == Ellipsis ==> QueryFrom(hs, j, old(Snap(gs, cs)), key) == QueryFrom(hs, j + 1, Snap(gs, cs), key)
    decreases hs, 0
  {
    ghost var w := Snap(gs, cs);
    QueryFromStep(hs, j, w, key);
    r := Get(hs[j], key, gs, cs);
  }

  /**
   `h[key] = value` on the objects: the new states and the error raised, if
   any, are those `Assign` gives.
   */
  method Put(h: Handler, key: Key, value: Value, ghost gs: set<GraphHandler>, ghost cs: set<DictCache>) returns (err: Option<Value>)
    requires Graphs(h) <= gs && Caches(h) <= cs
    modifies Graphs(h), Caches(h)
    ensures (Snap(gs, cs), err) == Assign(h, old(Snap(gs, cs)), key, value)
    decreases h, 1
  {
    match h
    case BaseHandler(next) =>
      if next.Some? {
        err := Put(next.value, key, value, gs, cs);
      } else {
        err := None;
      }
    case NullHandler(_) =>
      err := None;
    case CompositeHandler(hs) =>
      err := PutEach(hs, key, value, gs, cs);
    case Graph(g) =>
      err := PutGraph(g, key, value, gs, cs);
    case Cache(c) =>
      PutCache(c, key, value, gs, cs);
      err := None;
  }

  /** `Put` on a graph handler: only that handler's state changes. */
  method PutGraph(g: GraphHandler, key: Key, value: Value, ghost gs: set<GraphHandler>, ghost cs: set<DictCache>) returns (err: Option<Value>)
    requires g in gs
    modifies g
    ensures (Snap(gs, cs), err) == Assign(Graph(g), old(Snap(gs, cs)), key, value)
  {
    ghost var w0 := Snap(gs, cs);
    err := g.SetItem(key, value);
    assert Snap(gs, cs).graphs == w0.graphs[g := g.State()];
    assert Snap(gs, cs) == w0.(graphs := w0.graphs[g := g.State()]);
  }

  /** `Put` on a dict cache: only that cache's entries change. */
  method PutCache(c: DictCache, key: Key, value: Value, ghost gs: set<GraphHandler>, ghost cs: set<DictCache>)
    requires c in cs
    modifies c
    ensures (Snap(gs, cs), None) == Assign(Cache(c), old(Snap(gs, cs)), key, value)
  {
    ghost var w0 := Snap(gs, cs);
    c.SetItem(key, value);
    assert Snap(gs, cs).caches == w0.caches[c := c.entries];
    assert Snap(gs, cs) == w0.(caches := w0.caches[c := c.entries]);
  }

  /** `CompositeHandler.__setitem__`: write into each handler in turn; an error ends the loop. */
  method PutEach(hs: seq<Handler>, key: Key, value: Value, ghost gs: set<GraphHandler>, ghost cs: set<DictCache>) returns (err: Option<Value>)
    requires GraphsFrom(hs, 0) <= gs && CachesFrom(hs, 0) <= cs
    modifies GraphsFrom(hs, 0), CachesFrom(hs, 0)
    ensures (Snap(gs, cs), err) == AssignFrom(hs, 0, old(Snap(gs, cs)), key, value)
    decreases hs, 0
  {
    ghost var w0 := Snap(gs, cs);
    ghost var w := w0;
    var j := 0;
    while j < |hs|
      invariant 0 <= j <= |hs|
      invariant GraphsFrom(hs, j) <= GraphsFrom(hs, 0) && CachesFrom(hs, j) <= CachesFrom(hs, 0)
      invariant w == Snap(gs, cs)
      invariant AssignFrom(hs, 0, w0, key, value) == AssignFrom(hs, j, w, key, value)
    {
      AssignFromStep(hs, j, w, key, value);
      err := Put(hs[j], key, value, gs, cs);
      w := Assign(hs[j], w, key, value).0;
      if err.Some? {
        return;
      }
      j := j + 1;
    }
    err := None;
  }

  /** The stateful handlers of `hs[j]` and of `hs[j + 1..]` are among those of `hs[j..]`. */
  lemma LeavesStep(hs: seq<Handler>, j: nat)
    requires j < |hs|
    ensures Graphs(hs[j]) <= GraphsFrom(hs, j) && GraphsFrom(hs, j + 1) <= GraphsFrom(hs, j)
    ensures Caches(hs[j]) <= CachesFrom(hs, j) && CachesFrom(hs, j + 1) <= CachesFrom(hs, j)
  {
  }

  /** One step of a composite's read: `hs[j]` answers, or the rest is asked in the world it left. */
  lemma QueryFromStep(hs: seq<Handler>, j: nat, w: World, key: Key)
    requires j < |hs| && CoversFrom(hs, j, w)
    ensures Graphs(hs[j]) <= GraphsFrom(hs, j) && GraphsFrom(hs, j + 1) <= GraphsFrom(hs, j)
    ensures Caches(hs[j]) <= CachesFrom(hs, j) && CachesFrom(hs, j + 1) <= CachesFrom(hs, j)
    ensures var (v, w') := Query(hs[j], w, key);
      && CoversFrom(hs, j + 1, w')
      && QueryFrom(hs, j, w, key) == if v != Ellipsis then (v, w') else QueryFrom(hs, j + 1, w', key)
  {
  }

  /** One step of a composite's write: `hs[j]` raises, or the rest is written in the world it left. */
  lemma AssignFromStep(hs: seq<Handler>, j: nat, w: World, key: Key, value: Value)
    requires j < |hs| && CoversFrom(hs, j, w)
    ensures Graphs(hs[j]) <= GraphsFrom(hs, j) && GraphsFrom(hs, j + 1) <= GraphsFrom(hs, j)
    ensures Caches(hs[j]) <= CachesFrom(hs, j) && CachesFrom(hs, j + 1) <= CachesFrom(hs, j)
    ensures var (w', err) := Assign(hs[j], w, key, value);
      && CoversFrom(hs, j + 1, w')
      && AssignFrom(hs, j, w, key, value) == if err.Some? then (w', err) else AssignFrom(hs, j + 1, w', key, value)
  {
  }

  /* ---------- Properties ---------- */

  /**
   A null handler answers `Ellipsis` and ignores writes whatever `next` it
   was given, where a pass-through handler with the same `next` forwards.
   */
  lemma NullIgnoresNext(n: Option<Handler>, w: World, key: Key, value: Value)
    requires Covers(BaseHandler(n), w)
    ensures Query(NullHandler(n), w, key) == (Ellipsis, w)
    ensures Assign(NullHandler(n), w, key, value) == (w, None)
    ensures n.Some? ==> Query(BaseHandler(n), w, key) == Query(n.value, w, key)
    ensures n.Some? ==> Assign(BaseHandler(n), w, key, value) == Assign(n.value, w, key, value)
    ensures n.None? ==> Query(BaseHandler(n), w, key) == (Ellipsis, w) && Assign(BaseHandler(n), w, key, value) == (w, None)
  {
  }

  /**
   A composite over `a + b` asks `b` only when every handler of `a` missed,
   and then in the world `a` left behind.
   */
  lemma {:induction false} QuerySplit(a: seq<Handler>, b: seq<Handler>, i: nat, w: World, key: Key)
    requires i <= |a| && CoversFrom(a + b, i, w)
    ensures CoversFrom(a, i, w)
    ensures var (v, w') := QueryFrom(a, i, w, key);
      && CoversFrom(b, 0, w')
      && QueryFrom(a + b, i, w, key) == if v != Ellipsis then (v, w') else QueryFrom(b, 0, w', key)
    decreases |a| - i
  {
    LeavesSplit(a, b, i);
    if i < |a| {
      assert (a + b)[i] == a[i];
      var (v, w') := Query(a[i], w, key);
      if v == Ellipsis {
        QuerySplit(a, b, i + 1, w', key);
      }
    } else {
      assert (a + b)[i..] == b;
      SuffixLeaves(a + b, b, i);
      QueryFromSuffix(a + b, b, i, w, key);
    }
  }

  /**
   Reading a dict handler leaves the key in it (`key in cache` then holds),
   and reading again answers the same and changes nothing more.
   */
  lemma CacheReadRemembers(c: DictCache, w: World, key: Key)
    requires c in w.caches
    ensures var (v, w') := Query(Cache(c), w, key);
      && key in w'.caches[c] && w'.caches[c][key] == v
      && Query(Cache(c), w', key) == (v, w')
      && (key !in w.caches[c] ==> v == Ellipsis)
  {
    var (v, w') := Query(Cache(c), w, key);
    assert w'.(caches := w'.caches[c := w'.caches[c]]) == w';
  }

  /** Handlers that answer `Ellipsis` to every read: no cache or graph handler reachable by a read. */
  predicate NeverAnswers(h: Handler)
    decreases h
  {
    match h
    case BaseHandler(next) => next.None? || NeverAnswers(next.value)
    case NullHandler(_) => true
    case CompositeHandler(hs) => forall j | 0 <= j < |hs| :: NeverAnswers(hs[j])
    case Graph(_) => false
    case Cache(_) => false
  }

  lemma {:induction false} NeverAnswersIsEllipsis(h: Handler, w: World, key: Key)
    requires Covers(h, w) && NeverAnswers(h)
    ensures Query(h, w, key).0 == Ellipsis
    decreases h, 1
  {
    match h
    case BaseHandler(next) =>
      if next.Some? {
        NeverAnswersIsEllipsis(next.value, w, key);
      }
    case NullHandler(_) =>
    case CompositeHandler(hs) =>
      CoversAt(hs, 0, w);
      AllMissIsEllipsis(hs, 0, w, key);
  }

  /** A composite in which every handler misses answers `Ellipsis`; so does an empty one. */
  lemma {:induction false} AllMissIsEllipsis(hs: seq<Handler>, i: nat, w: World, key: Key)
    requires i <= |hs| && CoversFrom(hs, i, w)
    requires forall j | i <= j < |hs| :: NeverAnswers(hs[j])
    ensures QueryFrom(hs, i, w, key).0 == Ellipsis
    decreases hs, |hs| - i
  {
    if i < |hs| {
      NeverAnswersIsEllipsis(hs[i], w, key);
      AllMissIsEllipsis(hs, i + 1, Query(hs[i], w, key).1, key);
    }
  }

  /* ---------- Write fan-out ---------- */

  /** Every cache reachable from `h` maps `key` to `value`, and so does every graph handler's `retvals`. */
  predicate Holds(h: Handler, w: World, key: Key, value: Value) {
    && (forall c | c in Caches(h) :: c in w.caches && key in w.caches[c] && w.caches[c][key] == value)
    && (forall g | g in Graphs(h) :: g in w.graphs && key in w.graphs[g].retvals && w.graphs[g].retvals[key] == value)
  }

  predicate HoldsOn(gs: set<GraphHandler>, cs: set<DictCache>, w: World, key: Key, value: Value) {
    && (forall c | c in cs :: c in w.caches && key in w.caches[c] && w.caches[c][key] == value)
    && (forall g | g in gs :: g in w.graphs && key in w.graphs[g].retvals && w.graphs[g].retvals[key] == value)
  }

  /**
   A write changes no stateful handler outside `h`; inside `h` it only sets
   `key` to `value`, so whatever held of `(key, value)` before still holds.
   */
  lemma {:induction false} AssignKeeps(h: Handler, w: World, key: Key, value: Value, gs: set<GraphHandler>, cs: set<DictCache>)
    requires Covers(h, w) && HoldsOn(gs, cs, w, key, value)
    ensures HoldsOn(gs, cs, Assign(h, w, key, value).0, key, value)
    ensures forall c | c in w.caches && c !in Caches(h) :: Assign(h, w, key, value).0.caches[c] == w.caches[c]
    ensures forall g | g in w.graphs && g !in Graphs(h) :: Assign(h, w, key, value).0.graphs[g] == w.graphs[g]
    decreases h, 1
  {
    match h
    case BaseHandler(next) =>
      if next.Some? {
        AssignKeeps(next.value, w, key, value, gs, cs);
      }
    case NullHandler(_) =>
    case CompositeHandler(hs) =>
      AssignFromKeeps(hs, 0, w, key, value, gs, cs);
    case Graph(g) =>
      AssignLeafKeeps(h, w, key, value, gs, cs);
    case Cache(c) =>
      AssignLeafKeeps(h, w, key, value, gs, cs);
  }

  /** `AssignKeeps` for a graph handler or a dict cache, which change only themselves. */
  lemma AssignLeafKeeps(h: Handler, w: World, key: Key, value: Value, gs: set<GraphHandler>, cs: set<DictCache>)
    requires h.Graph? || h.Cache?
    requires Covers(h, w) && HoldsOn(gs, cs, w, key, value)
    ensures HoldsOn(gs, cs, Assign(h, w, key, value).0, key, value)
    ensures forall c | c in w.caches && c !in Caches(h) :: Assign(h, w, key, value).0.caches[c] == w.caches[c]
    ensures forall g | g in w.graphs && g !in Graphs(h) :: Assign(h, w, key, value).0.graphs[g] == w.graphs[g]
  {
    if h.Graph? {
      StoreCachesAndPops(w.graphs[h.graph], key, value);
    }
  }

  lemma {:induction false} AssignFromKeeps(hs: seq<Handler>, i: nat, w: World, key: Key, value: Value, gs: set<GraphHandler>, cs: set<DictCache>)
    requires i <= |hs| && CoversFrom(hs, i, w) && HoldsOn(gs, cs, w, key, value)
    ensures HoldsOn(gs, cs, AssignFrom(hs, i, w, key, value).0, key, value)
    ensures forall c | c in w.caches && c !in CachesFrom(hs, i) :: AssignFrom(hs, i, w, key, value).0.caches[c] == w.caches[c]
    ensures forall g | g in w.graphs && g !in GraphsFrom(hs, i) :: AssignFrom(hs, i, w, key, value).0.graphs[g] == w.graphs[g]
    decreases hs, |hs| - i
  {
    if i < |hs| {
      assert CachesFrom(hs, i) == Caches(hs[i]) + CachesFrom(hs, i + 1);
      assert GraphsFrom(hs, i) == Graphs(hs[i]) + GraphsFrom(hs, i + 1);
      AssignFromStep(hs, i, w, key, value);
      AssignKeeps(hs[i], w, key, value, gs, cs);
      var (w', err) := Assign(hs[i], w, key, value);
      if err.None? {
        AssignFromKeeps(hs, i + 1, w', key, value, gs, cs);
      }
    }
  }

  /**
   A write that raises no error reaches every cache and every graph handler
   below `h`, whether or not any of them held the key before.
   */
  lemma {:induction false} AssignReachesAll(h: Handler, w: World, key: Key, value: Value)
    requires Covers(h, w) && Assign(h, w, key, value).1.None?
    ensures Holds(h, Assign(h, w, key, value).0, key, value)
    decreases h, 1
  {
    match h
    case BaseHandler(next) =>
      if next.Some? {
        AssignReachesAll(next.value, w, key, value);
      }
    case NullHandler(_) =>
    case CompositeHandler(hs) =>
      AssignFromReachesAll(hs, 0, w, key, value);
    case Graph(g) =>
    case Cache(c) =>
  }

  lemma {:induction false} AssignFromReachesAll(hs: seq<Handler>, i: nat, w: World, key: Key, value: Value)
    requires i <= |hs| && CoversFrom(hs, i, w) && AssignFrom(hs, i, w, key, value).1.None?
    ensures HoldsOn(GraphsFrom(hs, i), CachesFrom(hs, i), AssignFrom(hs, i, w, key, value).0, key, value)
    decreases hs, |hs| - i
  {
    if i < |hs| {
      var (w', err) := Assign(hs[i], w, key, value);
      AssignReachesAll(hs[i], w, key, value);
      AssignFromReachesAll(hs, i + 1, w', key, value);
      AssignFromKeeps(hs, i + 1, w', key, value, Graphs(hs[i]), Caches(hs[i]));
    }
  }

  /** Handlers whose read can answer from a cache or graph handler reachable from them. */
  predicate Retains(h: Handler)
    decreases h
  {
    match h
    case BaseHandler(next) => next.Some? && Retains(next.value)
    case NullHandler(_) => false
    case CompositeHandler(hs) => exists j | 0 <= j < |hs| :: Retains(hs[j])
    case Graph(_) => true
    case Cache(_) => true
  }

  /**
   Reading after a write: once every stateful handler below `h` holds `key`
   as `value` (not `Ellipsis`), a read answers `value` when `h` can retain
   values at all and `Ellipsis` otherwise, and keeps that fact for any set
   of handlers.
   */
  lemma {:induction false} ReadAfterWrite(h: Handler, w: World, key: Key, value: Value, gs: set<GraphHandler>, cs: set<DictCache>)
    requires Covers(h, w) && value != Ellipsis
    requires Holds(h, w, key, value) && HoldsOn(gs, cs, w, key, value)
    ensures Query(h, w, key).0 == if Retains(h) then value else Ellipsis
    ensures HoldsOn(gs, cs, Query(h, w, key).1, key, value)
    decreases h, 1
  {
    match h
    case BaseHandler(next) =>
      if next.Some? {
        ReadAfterWrite(next.value, w, key, value, gs, cs);
      }
    case NullHandler(_) =>
    case CompositeHandler(hs) =>
      HoldsFrom(hs, 0, w, key, value);
      ReadFromAfterWrite(hs, 0, w, key, value, gs, cs);
    case Graph(g) =>
    case Cache(c) =>
  }

  lemma {:induction false} ReadFromAfterWrite(hs: seq<Handler>, i: nat, w: World, key: Key, value: Value, gs: set<GraphHandler>, cs: set<DictCache>)
    requires i <= |hs| && CoversFrom(hs, i, w) && value != Ellipsis
    requires HoldsOn(GraphsFrom(hs, i), CachesFrom(hs, i), w, key, value) && HoldsOn(gs, cs, w, key, value)
    ensures QueryFrom(hs, i, w, key).0 == if exists j | i <= j < |hs| :: Retains(hs[j]) then value else Ellipsis
    ensures HoldsOn(gs, cs, QueryFrom(hs, i, w, key).1, key, value)
    decreases hs, |hs| - i
  {
    if i < |hs| {
      var rest := GraphsFrom(hs, i + 1);
      var restCaches := CachesFrom(hs, i + 1);
      ReadAfterWrite(hs[i], w, key, value, gs + rest, cs + restCaches);
      var (v, w') := Query(hs[i], w, key);
      if v == Ellipsis {
        ReadFromAfterWrite(hs, i + 1, w', key, value, gs, cs);
        if exists j | i <= j < |hs| :: Retains(hs[j]) {
          var j :| i <= j < |hs| && Retains(hs[j]);
          assert j != i;
        }
      }
    }
  }

  /** What holds of every handler of a composite holds of its rest. */
  lemma HoldsFrom(hs: seq<Handler>, i: nat, w: World, key: Key, value: Value)
    requires i <= |hs| && Holds(CompositeHandler(hs), w, key, value)
    ensures HoldsOn(GraphsFrom(hs, i), CachesFrom(hs, i), w, key, value)
  {
    LeavesFrom(hs, i);
  }

  /**
   Writes pass through a stack of pass-through handlers, a composite among
   them, to the caches below; reading back through the same stack then
   answers the value written.
   */
  lemma WriteThenRead(h: Handler, w: World, key: Key, value: Value)
    requires Covers(h, w) && value != Ellipsis && Retains(h)
    requires Assign(h, w, key, value).1.None?
    ensures Query(h, Assign(h, w, key, value).0, key).0 == value
  {
    var w' := Assign(h, w, key, value).0;
    AssignReachesAll(h, w, key, value);
    ReadAfterWrite(h, w', key, value, {}, {});
  }

  /* ---------- Edge symmetry ---------- */

  predicate AllSymmetric(w: World) {
    forall g | g in w.graphs :: Symmetric(w.graphs[g])
  }

  /** Reads and writes through any handler keep the edge maps of every graph handler symmetric. */
  lemma {:induction false} QueryKeepsSymmetric(h: Handler, w: World, key: Key)
    requires Covers(h, w) && AllSymmetric(w)
    ensures AllSymmetric(Query(h, w, key).1)
    decreases h, 1
  {
    match h
    case BaseHandler(next) =>
      if next.Some? {
        QueryKeepsSymmetric(next.value, w, key);
      }
    case NullHandler(_) =>
    case CompositeHandler(hs) =>
      QueryFromKeepsSymmetric(hs, 0, w, key);
    case Graph(g) =>
      LookupKeepsSymmetric(w.graphs[g], key);
    case Cache(c) =>
  }

  lemma {:induction false} QueryFromKeepsSymmetric(hs: seq<Handler>, i: nat, w: World, key: Key)
    requires i <= |hs| && CoversFrom(hs, i, w) && AllSymmetric(w)
    ensures AllSymmetric(QueryFrom(hs, i, w, key).1)
    decreases hs, |hs| - i
  {
    if i < |hs| {
      QueryKeepsSymmetric(hs[i], w, key);
      var (v, w') := Query(hs[i], w, key);
      if v == Ellipsis {
        QueryFromKeepsSymmetric(hs, i + 1, w', key);
      }
    }
  }

  lemma {:induction false} AssignKeepsSymmetric(h: Handler, w: World, key: Key, value: Value)
    requires Covers(h, w) && AllSymmetric(w)
    ensures AllSymmetric(Assign(h, w, key, value).0)
    decreases h, 1
  {
    match h
    case BaseHandler(next) =>
      if next.Some? {
        AssignKeepsSymmetric(next.value, w, key, value);
      }
    case NullHandler(_) =>
    case CompositeHandler(hs) =>
      AssignFromKeepsSymmetric(hs, 0, w, key, value);
    case Graph(g) =>
      StoreKeepsSymmetric(w.graphs[g], key, value);
    case Cache(c) =>
  }

  lemma {:induction false} AssignFromKeepsSymmetric(hs: seq<Handler>, i: nat, w: World, key: Key, value: Value)
    requires i <= |hs| && CoversFrom(hs, i, w) && AllSymmetric(w)
    ensures AllSymmetric(AssignFrom(hs, i, w, key, value).0)
    decreases hs, |hs| - i
  {
    if i < |hs| {
      AssignKeepsSymmetric(hs[i], w, key, value);
      var (w', err) := Assign(hs[i], w, key, value);
      if err.None? {
        AssignFromKeepsSymmetric(hs, i + 1, w', key, value);
      }
    }
  }

  /* ---------- Helpers about the reachable handlers ---------- */

  lemma {:induction false} LeavesFrom(hs: seq<Handler>, i: nat)
    requires i <= |hs|
    ensures GraphsFrom(hs, i) <= GraphsFrom(hs, 0) && CachesFrom(hs, i) <= CachesFrom(hs, 0)
    ensures forall j | i <= j < |hs| :: Graphs(hs[j]) <= GraphsFrom(hs, i) && Caches(hs[j]) <= CachesFrom(hs, i)
    decreases i
  {
    if i > 0 {
      LeavesFrom(hs, i - 1);
    }
    LeavesAt(hs, i);
  }

  lemma {:induction false} LeavesAt(hs: seq<Handler>, i: nat)
    requires i <= |hs|
    ensures forall j | i <= j < |hs| :: Graphs(hs[j]) <= GraphsFrom(hs, i) && Caches(hs[j]) <= CachesFrom(hs, i)
    decreases |hs| - i
  {
    if i < |hs| {
      LeavesAt(hs, i + 1);
    }
  }

  lemma CoversAt(hs: seq<Handler>, i: nat, w: World)
    requires i <= |hs| && Covers(CompositeHandler(hs), w)
    ensures CoversFrom(hs, i, w)
  {
    LeavesFrom(hs, i);
  }

  lemma {:induction false} LeavesSplit(a: seq<Handler>, b: seq<Handler>, i: nat)
    requires i <= |a|
    ensures GraphsFrom(a + b, i) == GraphsFrom(a, i) + GraphsFrom(b, 0)
    ensures CachesFrom(a + b, i) == CachesFrom(a, i) + CachesFrom(b, 0)
    decreases |a| - i
  {
    if i < |a| {
      assert (a + b)[i] == a[i];
      LeavesSplit(a, b, i + 1);
    } else {
      SuffixLeaves(a + b, b, i);
    }
  }

  lemma {:induction false} SuffixLeaves(hs: seq<Handler>, b: seq<Handler>, i: nat)
    requires i <= |hs| && hs[i..] == b
    ensures GraphsFrom(hs, i) == GraphsFrom(b, 0) && CachesFrom(hs, i) == CachesFrom(b, 0)
    decreases |hs| - i
  {
    SuffixLeavesFrom(hs, b, i, 0);
  }

  lemma {:induction false} SuffixLeavesFrom(hs: seq<Handler>, b: seq<Handler>, i: nat, k: nat)
    requires i <= |hs| && hs[i..] == b && k <= |b|
    ensures GraphsFrom(hs, i + k) == GraphsFrom(b, k) && CachesFrom(hs, i + k) == CachesFrom(b, k)
    decreases |b| - k
  {
    if k < |b| {
      assert hs[i + k] == b[k];
      SuffixLeavesFrom(hs, b, i, k + 1);
    }
  }

  lemma {:induction false} QueryFromSuffix(hs: seq<Handler>, b: seq<Handler>, i: nat, w: World, key: Key)
    requires i <= |hs| && hs[i..] == b && CoversFrom(hs, i, w)
    ensures CoversFrom(b, 0, w)
    ensures QueryFrom(hs, i, w, key) == QueryFrom(b, 0, w, key)
  {
    SuffixLeaves(hs, b, i);
    QueryFromSuffixAt(hs, b, i, 0, w, key);
  }

  lemma {:induction false} QueryFromSuffixAt(hs: seq<Handler>, b: seq<Handler>, i: nat, k: nat, w: World, key: Key)
    requires i <= |hs| && hs[i..] == b && k <= |b| && CoversFrom(hs, i + k, w)
    ensures CoversFrom(b, k, w)
    ensures QueryFrom(hs, i + k, w, key) == QueryFrom(b, k, w, key)
    decreases |b| - k
  {
    SuffixLeavesFrom(hs, b, i, k);
    if k < |b| {
      assert hs[i + k] == b[k];
      var (v, w') := Query(b[k], w, key);
      if v == Ellipsis {
        QueryFromSuffixAt(hs, b, i, k + 1, w', key);
      }
    }
  }
}
