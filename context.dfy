/**
 The activation stack of graphty (src/graphty/context.py).

 `Context._handlers` is one list shared by every `Context`, seeded with a
 `NullHandler`; entering a context appends its handler, leaving pops the last
 entry, and `get_handler` reads the last entry.  `HandlerStack` is that list;
 a `Context` holds the handler it installs.
 */
module Contexts {
  import opened PyObjects
  import opened CallKeys
  import opened Handlers

  /** `get_handler()` on the list `s`: its last element, or the IndexError of `s[-1]` on an empty list. */
  function Active(s: seq<Handler>): (r: Result<Handler, Value>)
    ensures r.Success? <==> s != []
    ensures r.Success? ==> r.value == s[|s| - 1]
  {
    if s == [] then Failure(IndexError("list index out of range")) else Success(s[|s| - 1])
  }

  /** `_handlers.pop(-1)`: the list without its last element, or the IndexError of popping an empty list. */
  function Popped(s: seq<Handler>): (r: Result<seq<Handler>, Value>)
    ensures r.Success? <==> s != []
    ensures r.Success? ==> r.value + [s[|s| - 1]] == s
  {
    if s == [] then Failure(IndexError("pop from empty list")) else Success(s[..|s| - 1])
  }

  /** The handler a context installs: a single handler as it is, several wrapped in a composite in the order given. */
  function Installed(first: Handler, rest: seq<Handler>): Handler {
    if rest == [] then first else CompositeHandler([first] + rest)
  }

  /** Whichever form `Installed` picks, it reads and writes as a composite over all the handlers given. */
  lemma InstalledActsAsComposite(first: Handler, rest: seq<Handler>, w: World, key: Key, value: Value)
    requires Covers(CompositeHandler([first] + rest), w)
    ensures Covers(Installed(first, rest), w)
    ensures Query(Installed(first, rest), w, key) == Query(CompositeHandler([first] + rest), w, key)
    ensures Assign(Installed(first, rest), w, key, value) == Assign(CompositeHandler([first] + rest), w, key, value)
  {
    if rest == [] {
      var hs := [first] + rest;
      assert hs[0] == first && |hs| == 1;
      assert GraphsFrom(hs, 1) == {} && CachesFrom(hs, 1) == {};
      assert Graphs(first) == GraphsFrom(hs, 0) && Caches(first) == CachesFrom(hs, 0);
      var (v, w') := Query(first, w, key);
      assert QueryFrom(hs, 1, w', key) == (Ellipsis, w');
      var (w'', err) := Assign(first, w, key, value);
      assert AssignFrom(hs, 1, w'', key, value) == (w'', None);
    }
  }

  /** The class-level list `Context._handlers`. */
  class HandlerStack {
    var handlers: seq<Handler>

    /** The list starts out holding exactly one `NullHandler`. */
    constructor ()
      ensures handlers == [NullHandler(None)]
      ensures Active(handlers) == Success(NullHandler(None))
    {
      handlers := [NullHandler(None)];
    }

    /** `get_handler()`: reads the last entry and changes nothing. */
    method GetHandler() returns (r: Result<Handler, Value>)
      ensures r == Active(handlers)
    {
      if |handlers| == 0 {
        r := Failure(IndexError("list index out of range"));
      } else {
        r := Success(handlers[|handlers| - 1]);
      }
    }
  }

  class Context {
    const handler: Handler

    /** `Context(handler, *handlers)`. */
    constructor (first: Handler, rest: seq<Handler>)
      ensures handler == Installed(first, rest)
    {
      if |rest| > 0 {
        handler := CompositeHandler([first] + rest);
      } else {
        handler := first;
      }
    }

    /** `__enter__`: push the installed handler and return it; it is then the active handler. */
    method Enter(stack: HandlerStack) returns (h: Handler)
      modifies stack
      ensures h == handler
      ensures stack.handlers == old(stack.handlers) + [handler]
      ensures Active(stack.handlers) == Success(handler)
    {
      stack.handlers := stack.handlers + [handler];
      h := handler;
    }

    /**
     `__exit__`: pop exactly one entry, whatever it is, and answer `False` so
     that an exception leaving the block propagates; popping an empty list
     raises instead.
     */
    method Exit(stack: HandlerStack) returns (r: Result<bool, Value>)
      modifies stack
      ensures Popped(old(stack.handlers)).Success? ==> r == Success(false) && stack.handlers == Popped(old(stack.handlers)).value
      ensures Popped(old(stack.handlers)).Failure? ==> r == Failure(Popped(old(stack.handlers)).error) && stack.handlers == old(stack.handlers)
    {
      if |stack.handlers| == 0 {
        r := Failure(IndexError("pop from empty list"));
      } else {
        stack.handlers := stack.handlers[..|stack.handlers| - 1];
        r := Success(false);
      }
    }
  }

  /** The push of `__enter__` and the pop of `__exit__` undo each other, and the pushed handler is active in between. */
  lemma PushThenPop(s: seq<Handler>, h: Handler)
    ensures Active(s + [h]) == Success(h)
    ensures Popped(s + [h]) == Success(s)
  {
    assert (s + [h])[..|s|] == s;
  }

  /* ---------- Nested `with` blocks ---------- */

  /** A statement of a block body: a nested `with Context(handler):` block, or a `raise`. */
  datatype Stmt = With(handler: Handler, body: seq<Stmt>) | Raise(error: Value)

  /**
   Run statements one after another from the list `s`.  A block enters,
   reads `get_handler()`, runs its body, and exits whether or not the body
   raised; after a normal exit it reads `get_handler()` again.  The result
   is the final list, the error that escapes (if any), and every handler
   read; statements after an error do not run.
   */
  function Run(s: seq<Handler>, bs: seq<Stmt>): (r: (seq<Handler>, Option<Value>, seq<Result<Handler, Value>>))
    decreases bs
  {
    if bs == [] then (s, None, [])
    else
      var (s1, e1, seen1) := RunStmt(s, bs[0]);
      if e1.Some? then (s1, e1, seen1)
      else
        var (s2, e2, seen2) := Run(s1, bs[1..]);
        (s2, e2, seen1 + seen2)
  }

  function RunStmt(s: seq<Handler>, b: Stmt): (r: (seq<Handler>, Option<Value>, seq<Result<Handler, Value>>))
    decreases b
  {
    match b
    case Raise(e) => (s, Some(e), [])
    case With(h, body) =>
      var inside := s + [h];
      var (s1, e1, seen) := Run(inside, body);
      var seenInside := [Active(inside)] + seen;
      // `__exit__` pops on both paths and returns False, so the body's error propagates
      var popped := Popped(s1);
      if popped.Failure? then (s1, Some(popped.error), seenInside)
      else if e1.Some? then (popped.value, e1, seenInside)
      else (popped.value, None, seenInside + [Active(popped.value)])
  }

  /** The error that leaves the statements: the first `raise` reached, in execution order. */
  function Escapes(bs: seq<Stmt>): Option<Value>
    decreases bs
  {
    if bs == [] then None
    else if EscapesStmt(bs[0]).Some? then EscapesStmt(bs[0])
    else Escapes(bs[1..])
  }

  function EscapesStmt(b: Stmt): Option<Value>
    decreases b
  {
    match b
    case Raise(e) => Some(e)
    case With(_, body) => Escapes(body)
  }

  /**
   What the reads of `get_handler()` give: inside a block its handler, after
   a block left normally the handler active before it; nothing is read
   after an error.
   */
  function Expected(s: seq<Handler>, bs: seq<Stmt>): seq<Result<Handler, Value>>
    decreases bs
  {
    if bs == [] then []
    else if EscapesStmt(bs[0]).Some? then ExpectedStmt(s, bs[0])
    else ExpectedStmt(s, bs[0]) + Expected(s, bs[1..])
  }

  function ExpectedStmt(s: seq<Handler>, b: Stmt): seq<Result<Handler, Value>>
    decreases b
  {
    match b
    case Raise(_) => []
    case With(h, body) =>
      [Success(h)] + Expected(s + [h], body) + (if Escapes(body).None? then [Active(s)] else [])
  }

  /**
   Nested blocks leave the list exactly as they found it, on normal exit and
   when an error leaves them alike; the error that escapes is the first one
   raised; every block sees its own handler as the active one, and leaving a
   block normally restores the handler that was active before it.
   */
  lemma {:induction false} BlocksBalanced(s: seq<Handler>, bs: seq<Stmt>)
    ensures Run(s, bs) == (s, Escapes(bs), Expected(s, bs))
    decreases bs
  {
    if bs != [] {
      BlockBalanced(s, bs[0]);
      if EscapesStmt(bs[0]).None? {
        BlocksBalanced(s, bs[1..]);
      }
    }
  }

  lemma {:induction false} BlockBalanced(s: seq<Handler>, b: Stmt)
    ensures RunStmt(s, b) == (s, EscapesStmt(b), ExpectedStmt(s, b))
    decreases b
  {
    match b
    case Raise(_) =>
    case With(h, body) =>
      var inside := s + [h];
      BlocksBalanced(inside, body);
      PushThenPop(s, h);
      var seenInside := [Active(inside)] + Expected(inside, body);
      if Escapes(body).Some? {
        assert ExpectedStmt(s, b) == seenInside + [];
        assert seenInside + [] == seenInside;
        assert RunStmt(s, b) == (s, Escapes(body), seenInside);
      } else {
        assert ExpectedStmt(s, b) == seenInside + [Active(s)];
      }
  }

  /**
   A block whose body raises still restores the list on the way out, and the
   body's own error is what propagates from it.
   */
  lemma RaisingBlockRestores(s: seq<Handler>, h: Handler, body: seq<Stmt>)
    requires Escapes(body).Some?
    ensures RunStmt(s, With(h, body)).0 == s
    ensures RunStmt(s, With(h, body)).1 == Escapes(body)
  {
    BlockBalanced(s, With(h, body));
  }
}
