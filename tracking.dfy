/**
 Wrapped calls driven through a graph handler.

 The wrapper the graph tests decorate with speaks the sentinel protocol of
 the handlers: `handler[key]` answers `Ellipsis` for a call that must run.
 It otherwise follows the control flow of src/snake/shifter/wrapper.py: build
 the key, ask the handler, replay a hit (raising the first argument of a
 recorded `Exception`), or run the body and store its return value or its
 error wrapped in `Exception`, then return or re-raise.

 A call is a tree: its key, the wrapped calls its body makes in order, and
 how the body finishes given the values they returned.  A call made by a
 body that raises propagates out of it, as it does through a body that does
 not catch it.
 */
module Tracking {
  import opened PyObjects
  import opened CallKeys
  import opened MemoGraph
  import Shifter

  /** One call of a wrapped function: its key (or the error of binding), the wrapped calls its body makes, and its finish. */
  datatype Call = Call(key: Result<Key, Value>, inner: seq<Call>, finish: seq<Value> -> Outcome)

  /** One call against the handler state `s`: the outcome for the caller and the new state. */
  function Exec(s: GraphState, c: Call): (r: (Outcome, GraphState))
    decreases c, 1
  {
    if c.key.Failure? then (Raised(c.key.error), s)
    else
      var key := c.key.value;
      var (v, s1) := Lookup(s, key);
      if v != Ellipsis then (Shifter.Replay(v), s1)
      else
        var (r, s2) := ExecFrom(s1, c.inner, 0, []);
        Complete(s2, key, if r.Failure? then Raised(r.error) else c.finish(r.value))
  }

  /** The calls `cs[i..]` in order, after `acc` was returned by the earlier ones; the first error stops the body. */
  function ExecFrom(s: GraphState, cs: seq<Call>, i: nat, acc: seq<Value>): (r: (Result<seq<Value>, Value>, GraphState))
    requires i <= |cs|
    decreases cs, |cs| - i
  {
    if i == |cs| then (Success(acc), s)
    else
      var (o, s1) := Exec(s, cs[i]);
      if o.Raised? then (Failure(o.error), s1)
      else ExecFrom(s1, cs, i + 1, acc + [o.value])
  }

  /**
   The `try`/`except` around a body that ran with outcome `o`: store the
   return value, or the error wrapped in `Exception`.  A store that fails
   after a return is caught in turn, its error stored wrapped, and the error
   of that second store raised; a store that fails after a raise raises its
   own error.
   */
  function Complete(s: GraphState, key: Key, o: Outcome): (r: (Outcome, GraphState))
  {
    var (t, err) := Store(s, key, Shifter.Recorded(o));
    if err.None? then (o, t)
    else if o.Raised? then (Raised(err.value), t)
    else
      var (t2, err2) := Store(t, key, WrapFailure(err.value));
      (Raised(if err2.Some? then err2.value else err.value), t2)
  }

  /* ---------- Well-behaved calls ---------- */

  /**
   An outcome the cache gives back unchanged: an error that is an exception,
   or a value that is neither `Ellipsis` (the miss sentinel) nor exactly an
   `Exception` (the failure wrapper).
   */
  predicate Plain(o: Outcome) {
    if o.Raised? then o.error.Exc? else o.value != Ellipsis && !IsExactlyException(o.value)
  }

  /** Every call in the tree binds or fails with an exception, and every body finishes with a plain outcome. */
  ghost predicate Proper(c: Call)
    decreases c
  {
    && (c.key.Failure? ==> c.key.error.Exc?)
    && (forall vs :: Plain(c.finish(vs)))
    && (forall i | 0 <= i < |c.inner| :: Proper(c.inner[i]))
  }

  /** The cache holds no `Ellipsis`, so every cached key is a hit, and the edges are symmetric. */
  ghost predicate Good(s: GraphState) {
    Symmetric(s) && forall k | k in s.retvals :: s.retvals[k] != Ellipsis
  }

  /** `t` keeps every cached value and every edge of `s`. */
  ghost predicate Grows(s: GraphState, t: GraphState) {
    && (forall k | k in s.retvals :: k in t.retvals && t.retvals[k] == s.retvals[k])
    && (forall a | a in s.children :: s.children[a] <= EdgesOf(t.children, a))
    && (forall b | b in s.parents :: s.parents[b] <= EdgesOf(t.parents, b))
  }

  /** What one bound call leaves behind for `key`, given the state `s` it started from. */
  ghost predicate Answered(s: GraphState, key: Key, o: Outcome, t: GraphState) {
    && key in t.retvals
    && Shifter.Replay(t.retvals[key]) == o
    && (key in s.retvals ==> o == Shifter.Replay(s.retvals[key]) && t.retvals == s.retvals)
    && (key !in s.retvals ==> t.retvals[key] == Shifter.Recorded(o))
    && (s.stack != [] ==> Top(s.stack) in EdgesOf(t.parents, key) && key in EdgesOf(t.children, Top(s.stack)))
  }

  /** A plain outcome survives being recorded and replayed. */
  lemma ReplayRecorded(o: Outcome)
    requires Plain(o)
    ensures Shifter.Replay(Shifter.Recorded(o)) == o
    ensures Shifter.Recorded(o) != Ellipsis
  {
    if o.Raised? {
      assert FirstArg(Shifter.Recorded(o)) == Success(o.error);
    }
  }

  lemma GrowsTrans(s: GraphState, t: GraphState, u: GraphState)
    requires Grows(s, t) && Grows(t, u)
    ensures Grows(s, u)
  {
    forall a | a in s.children ensures s.children[a] <= EdgesOf(u.children, a) {
      if a in t.children {
        assert t.children[a] <= EdgesOf(u.children, a);
      }
    }
    forall b | b in s.parents ensures s.parents[b] <= EdgesOf(u.parents, b) {
      if b in t.parents {
        assert t.parents[b] <= EdgesOf(u.parents, b);
      }
    }
  }

  /** A lookup keeps the cache and adds an edge. */
  lemma LookupGrows(s: GraphState, key: Key)
    requires Good(s)
    ensures Good(Lookup(s, key).1) && Grows(s, Lookup(s, key).1)
    ensures s.stack != [] ==> Top(s.stack) in EdgesOf(Lookup(s, key).1.parents, key) && key in EdgesOf(Lookup(s, key).1.children, Top(s.stack))
  {
    var t := Lookup(s, key).1;
    LookupRecordsEdge(s, key);
    LookupHitOrMiss(s, key);
    LookupKeepsSymmetric(s, key);
    forall a | a in s.children ensures s.children[a] <= EdgesOf(t.children, a) {
      forall b | b in s.children[a] ensures b in EdgesOf(t.children, a) {
        assert b in EdgesOf(s.children, a);
      }
    }
    forall b | b in s.parents ensures s.parents[b] <= EdgesOf(t.parents, b) {
      forall a | a in s.parents[b] ensures a in EdgesOf(t.parents, b) {
        assert a in EdgesOf(s.parents, b);
      }
    }
  }

  /**
   The store that ends a call that missed, on the stack its lookup pushed:
   it pops back to the caller's stack, raises nothing of its own, and keeps
   everything the call started from.
   */
  lemma {:induction false} CompleteAfterMiss(s: GraphState, key: Key, m: GraphState, o: Outcome)
    requires Good(s) && Good(m) && key !in s.retvals && Grows(s, m)
    requires m.stack == s.stack + [key]
    requires Plain(o)
    ensures var (o', t) := Complete(m, key, o);
      && o' == o && Good(t) && Grows(s, t) && t.stack == s.stack
      && key in t.retvals && t.retvals[key] == Shifter.Recorded(o)
      && t.parents == m.parents && t.children == m.children
  {
    StoreCachesAndPops(m, key, Shifter.Recorded(o));
    StoreKeepsSymmetric(m, key, Shifter.Recorded(o));
    ReplayRecorded(o);
    var t := Store(m, key, Shifter.Recorded(o)).0;
    assert t.stack + [key] == s.stack + [key];
    assert t.stack == (t.stack + [key])[..|t.stack|];
  }

  /* ---------- What a call does ---------- */

  /**
   From a good state, a proper call returns a plain outcome and leaves the
   stack as it found it (so a completed top-level call leaves it empty); it
   keeps every cached value and edge, and ends with its key cached, the
   edge from its caller recorded, and its answer the one a replay of the
   cached value gives.  A hit answers the cached value and stores nothing;
   a miss stores the recorded outcome.
   */
  lemma {:induction false} ExecSound(s: GraphState, c: Call)
    requires Good(s) && Proper(c)
    ensures var (o, t) := Exec(s, c);
      && Good(t) && Grows(s, t) && t.stack == s.stack && Plain(o)
      && (c.key.Failure? ==> o == Raised(c.key.error) && t == s)
      && (c.key.Success? ==> Answered(s, c.key.value, o, t))
    decreases c, 1
  {
    if c.key.Success? {
      var key := c.key.value;
      var (v, s1) := Lookup(s, key);
      LookupGrows(s, key);
      LookupHitOrMiss(s, key);
      if key in s.retvals {
        var o := Shifter.Replay(v);
        assert v != Ellipsis;
        assert Plain(o);
      } else {
        ExecFromSound(s1, c.inner, 0, []);
        var (r, s2) := ExecFrom(s1, c.inner, 0, []);
        var o := if r.Failure? then Raised(r.error) else c.finish(r.value);
        assert Plain(o);
        GrowsTrans(s, s1, s2);
        CompleteAfterMiss(s, key, s2, o);
        ReplayRecorded(o);
        var t := Complete(s2, key, o).1;
        if s.stack != [] {
          assert Top(s.stack) in EdgesOf(s1.parents, key) && key in EdgesOf(s1.children, Top(s.stack));
          assert key in s1.parents && Top(s.stack) in s1.children;
        }
      }
    }
  }

  /** The calls of one body keep the stack, the cache and the edges, and fail only with an exception. */
  lemma {:induction false} ExecFromSound(s: GraphState, cs: seq<Call>, i: nat, acc: seq<Value>)
    requires Good(s) && i <= |cs|
    requires forall j | i <= j < |cs| :: Proper(cs[j])
    ensures var (r, t) := ExecFrom(s, cs, i, acc);
      && Good(t) && Grows(s, t) && t.stack == s.stack && (r.Failure? ==> r.error.Exc?)
    decreases cs, |cs| - i
  {
    if i < |cs| {
      ExecSound(s, cs[i]);
      var (o, s1) := Exec(s, cs[i]);
      if o.Returned? {
        ExecFromSound(s1, cs, i + 1, acc + [o.value]);
        GrowsTrans(s, s1, ExecFrom(s1, cs, i + 1, acc + [o.value]).1);
      }
    }
  }

  /**
   Calling again with the same arguments is served from the cache: it gives
   the same outcome, runs no body, and changes nothing at all, edges
   included.
   */
  lemma ExecAgain(s: GraphState, c: Call)
    requires Good(s) && Proper(c)
    ensures Exec(Exec(s, c).1, c) == Exec(s, c)
  {
    ExecSound(s, c);
    var (o, t) := Exec(s, c);
    if c.key.Success? {
      var key := c.key.value;
      assert t.retvals[key] != Ellipsis;
      if t.stack != [] {
        var top := Top(t.stack);
        assert top in t.children && key in t.parents;
        assert EdgesOf(t.children, top) + {key} == t.children[top];
        assert EdgesOf(t.parents, key) + {top} == t.parents[key];
        assert t.children[top := EdgesOf(t.children, top) + {key}] == t.children;
        assert t.parents[key := EdgesOf(t.parents, key) + {top}] == t.parents;
      }
      assert RecordEdge(t, key) == t;
    }
  }

  /** A call whose key is cached runs nothing: it only records the edge from its caller and replays the cached value. */
  lemma CachedCall(s: GraphState, c: Call)
    requires c.key.Success? && c.key.value in s.retvals && s.retvals[c.key.value] != Ellipsis
    ensures Exec(s, c) == (Shifter.Replay(s.retvals[c.key.value]), RecordEdge(s, c.key.value))
  {
  }

  /**
   A call that makes no wrapped calls, missing while another call runs:
   it records the edge from its caller, caches its recorded outcome, and
   leaves the stack as it found it.
   */
  lemma LeafMiss(s: GraphState, c: Call)
    requires c.key.Success? && c.inner == [] && c.key.value !in s.retvals && s.stack != []
    ensures var t := RecordEdge(s, c.key.value);
      Exec(s, c) == (c.finish([]), t.(retvals := t.retvals[c.key.value := Shifter.Recorded(c.finish([]))]))
  {
    var key := c.key.value;
    var m := Lookup(s, key).1;
    assert m.stack == s.stack + [key];
    assert ExecFrom(m, [], 0, []) == (Success([]), m);
    assert (s.stack + [key])[..|s.stack|] == s.stack;
  }

  /* ---------- The calls against a handler object ---------- */

  /** The wrapper around one call, run against the handler object `g`; it changes `g` as `Exec` says. */
  method Track(g: GraphHandler, c: Call) returns (o: Outcome)
    modifies g
    ensures (o, g.State()) == Exec(old(g.State()), c)
    decreases c, 1
  {
    if c.key.Failure? {
      return Raised(c.key.error);
    }
    var key := c.key.value;
    var value := g.GetItem(key);
    if value != Ellipsis {
      return Shifter.Replay(value);
    }
    var r := TrackFrom(g, c.inner);
    var body := if r.Failure? then Raised(r.error) else c.finish(r.value);
    var err := g.SetItem(key, Shifter.Recorded(body));
    if err.None? {
      return body;
    }
    if body.Raised? {
      return Raised(err.value);
    }
    var err2 := g.SetItem(key, WrapFailure(err.value));
    o := Raised(if err2.Some? then err2.value else err.value);
  }

  /** The wrapped calls of one body, in order, stopping at the first that raises. */
  method TrackFrom(g: GraphHandler, cs: seq<Call>) returns (r: Result<seq<Value>, Value>)
    modifies g
    ensures (r, g.State()) == ExecFrom(old(g.State()), cs, 0, [])
    decreases cs, 0
  {
    var vals: seq<Value> := [];
    var i := 0;
    while i < |cs|
      invariant 0 <= i <= |cs|
      invariant ExecFrom(old(g.State()), cs, 0, []) == ExecFrom(g.State(), cs, i, vals)
      decreases |cs| - i
    {
      var o := Track(g, cs[i]);
      if o.Raised? {
        return Failure(o.error);
      }
      vals := vals + [o.value];
      i := i + 1;
    }
    r := Success(vals);
  }
}
