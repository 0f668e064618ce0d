/**
 The reference call wrapper of src/snake/shifter/wrapper.py.

 `shift(func)` builds the key type of `func` once and returns a wrapper.
 Each call of the wrapper reads the active handler, builds the key, and
 either answers from the handler (re-raising a recorded failure) or runs
 `func`, records its return value or its error wrapped in `Exception`, and
 returns or re-raises.  The wrapper asks `key in handler`, so the handler it
 meets is a dict (`DictCache`).

 What `func` does when it runs is code the model cannot see: it enters as
 the `Outcome` the call of `func` would have.
 */
module Shifter {
  import opened PyObjects
  import opened Signatures
  import opened CallKeys
  import opened Handlers

  /** A wrapped function: the original and the key type bound into the wrapper, its `__key__`. */
  datatype Wrapped = Wrapped(func: Function, key: KeyType)

  /**
   `shift(func)`: fails with the ValueError of building the key type, or
   gives a wrapper whose `__key__` is the key type of `func`, built with the
   `.` separator, and whose `__func__` is `func` itself.
   */
  function Shift(f: Function): (r: Result<Wrapped, Value>)
    ensures r.Success? <==> MakeKeyType(f, ".").Success?
    ensures r.Success? ==> r.value.key == MakeKeyType(f, ".").value && r.value.func == f && r.value.key.func == f
    ensures r.Failure? ==> r.error == MakeKeyType(f, ".").error
  {
    var kt := MakeKeyType(f, ".");
    if kt.Failure? then Failure(kt.error) else Success(Wrapped(f, kt.value))
  }

  /** `node(func, *args, **kwargs)`: the key a call of the wrapped function stores under, `func.__key__.from_call(...)`. */
  function Node(w: Wrapped, pos: seq<Value>, kw: Keywords): (r: Result<Key, Value>)
    ensures r.Success? <==> Bindable(w.key.func.params, pos, kw)
    ensures r.Failure? ==> r.error.Exc? && r.error.cls == "TypeError"
    ensures r.Success? ==> |r.value| == |w.key.func.params| + 1 && r.value[|w.key.func.params|] == Func(w.key.func)
  {
    FromCallLayout(w.key, pos, kw);
    FromCall(w.key, pos, kw)
  }

  /**
   What a hit with the stored value `v` does for the caller: an object whose
   type is exactly `Exception` makes the call raise its first argument (an
   IndexError when it has none); any other value is returned.
   */
  function Replay(v: Value): (o: Outcome)
    ensures !IsExactlyException(v) ==> o == Returned(v)
    ensures IsExactlyException(v) && |v.args| > 0 ==> o == Raised(RaiseOf(v.args[0]))
    ensures IsExactlyException(v) && |v.args| == 0 ==> o.Raised? && o.error.Exc? && o.error.cls == "IndexError"
  {
    if IsExactlyException(v) then
      var first := FirstArg(v);
      if first.Success? then Raised(RaiseOf(first.value)) else Raised(first.error)
    else Returned(v)
  }

  /** The value a miss stores: the return value, or the error wrapped in `Exception`. */
  function Recorded(o: Outcome): (v: Value)
  {
    match o
    case Returned(x) => x
    case Raised(e) => WrapFailure(e)
  }

  /**
   One call of the wrapper against a dict handler holding `entries`, where
   running `func` would give `body`: the outcome for the caller and the new
   entries.
   */
  function Call(entries: map<Key, Value>, w: Wrapped, pos: seq<Value>, kw: Keywords, body: Outcome): (r: (Outcome, map<Key, Value>))
  {
    var key := FromCall(w.key, pos, kw);
    if key.Failure? then (Raised(key.error), entries)
    else if key.value in entries then (Replay(entries[key.value]), entries)
    else (body, entries[key.value := Recorded(body)])
  }

  /**
   `_func(*args, **kwargs)`.  The active handler is the last entry of the
   handler list; an empty list raises before any key is built.  A binding
   error raises before the handler is asked anything.
   */
  method Invoke(w: Wrapped, handlers: seq<DictCache>, pos: seq<Value>, kw: Keywords, body: Outcome) returns (r: Outcome)
    modifies if handlers == [] then {} else {handlers[|handlers| - 1]}
    ensures handlers == [] ==> r == Raised(IndexError("list index out of range"))
    ensures handlers != [] ==>
      var h := handlers[|handlers| - 1];
      (r, h.entries) == Call(old(h.entries), w, pos, kw, body)
  {
    if |handlers| == 0 {
      return Raised(IndexError("list index out of range"));
    }
    var handler := handlers[|handlers| - 1];
    var key := FromCall(w.key, pos, kw);
    if key.Failure? {
      return Raised(key.error);
    }
    var hit := handler.Contains(key.value);
    if hit {
      var value := handler.GetItem(key.value);
      if IsExactlyException(value) {
        // raise value.args[0] from value.args[0]
        var first := FirstArg(value);
        if first.Failure? {
          return Raised(first.error);
        }
        return Raised(RaiseOf(first.value));
      }
      return Returned(value);
    }
    match body
    case Returned(retval) =>
      handler.SetItem(key.value, retval);
      r := Returned(retval);
    case Raised(exc) =>
      handler.SetItem(key.value, WrapFailure(exc));
      r := Raised(exc);
  }

  /* ---------- Properties of one call ---------- */

  /** A hit answers from the handler: the result does not depend on what `func` would do, and nothing is stored. */
  lemma HitIgnoresBody(entries: map<Key, Value>, w: Wrapped, pos: seq<Value>, kw: Keywords, b1: Outcome, b2: Outcome)
    requires FromCall(w.key, pos, kw).Success? && FromCall(w.key, pos, kw).value in entries
    ensures Call(entries, w, pos, kw, b1) == Call(entries, w, pos, kw, b2)
    ensures Call(entries, w, pos, kw, b1).1 == entries
    ensures Call(entries, w, pos, kw, b1).0 == Replay(entries[FromCall(w.key, pos, kw).value])
  {
  }

  /**
   A miss runs `func` and stores exactly once, under `node(func, *args,
   **kwargs)`: its return value, or its error wrapped in `Exception`; the
   caller gets the return value unchanged, or the original error re-raised.
   */
  lemma MissStoresOnce(entries: map<Key, Value>, w: Wrapped, pos: seq<Value>, kw: Keywords, body: Outcome)
    requires Node(w, pos, kw).Success? && Node(w, pos, kw).value !in entries
    ensures var (o, e) := Call(entries, w, pos, kw, body);
      var key := Node(w, pos, kw).value;
      && o == body
      && e.Keys == entries.Keys + {key}
      && (forall k | k in entries :: e[k] == entries[k])
      && (body.Returned? ==> e[key] == body.value)
      && (body.Raised? ==> IsExactlyException(e[key]) && e[key].args == [body.error])
  {
  }

  /** A call whose arguments do not bind raises the TypeError of binding, runs nothing and stores nothing. */
  lemma BindingErrorStoresNothing(entries: map<Key, Value>, w: Wrapped, pos: seq<Value>, kw: Keywords, body: Outcome)
    requires !Bindable(w.key.func.params, pos, kw)
    ensures Call(entries, w, pos, kw, body).1 == entries
    ensures var o := Call(entries, w, pos, kw, body).0; o.Raised? && o.error.Exc? && o.error.cls == "TypeError"
  {
    FromCallLayout(w.key, pos, kw);
  }

  /**
   A second call with the same arguments is answered from what the first
   stored: an error the first call raised is raised again, the very same
   object, and a returned value that is not exactly an `Exception` is
   returned again, whatever `func` would do the second time.
   */
  lemma {:induction false} SecondCallReplays(entries: map<Key, Value>, w: Wrapped, pos: seq<Value>, kw: Keywords, body: Outcome, again: Outcome)
    requires body.Raised? ==> body.error.Exc?
    requires body.Returned? ==> !IsExactlyException(body.value)
    ensures var (o1, e1) := Call(entries, w, pos, kw, body);
      var (o2, e2) := Call(e1, w, pos, kw, again);
      e2 == e1 && (Node(w, pos, kw).Success? && Node(w, pos, kw).value !in entries ==> o2 == body)
  {
    var key := FromCall(w.key, pos, kw);
    if key.Success? && key.value !in entries {
      var e1 := Call(entries, w, pos, kw, body).1;
      assert e1[key.value] == Recorded(body);
      if body.Raised? {
        assert FirstArg(Recorded(body)) == Success(body.error);
      }
    }
  }

  /**
   The exact-type test on a hit: a plain return value whose type is exactly
   `Exception` is replayed as a raise of its first argument, so the second
   call of such a function does not return what the first returned.
   */
  lemma ReturnedExceptionIsRaisedOnReplay(entries: map<Key, Value>, w: Wrapped, pos: seq<Value>, kw: Keywords, a: Value, again: Outcome)
    requires Node(w, pos, kw).Success? && Node(w, pos, kw).value !in entries
    ensures var body := Returned(Exc("Exception", [a]));
      var (o1, e1) := Call(entries, w, pos, kw, body);
      o1 == body && Call(e1, w, pos, kw, again).0 == Raised(RaiseOf(a))
  {
    var key := Node(w, pos, kw).value;
    var e1 := Call(entries, w, pos, kw, Returned(Exc("Exception", [a]))).1;
    assert e1[key] == Exc("Exception", [a]);
  }

  /**
   `handler[key]` on a `defaultdict(lambda: Ellipsis)` inserts `Ellipsis`
   for an absent key, and the wrapper tests `key in handler`: after such a
   read, a call with that key is a hit, returns `Ellipsis` without running
   `func`, and stores nothing.
   */
  lemma ReadBeforeCallReturnsEllipsis(entries: map<Key, Value>, w: Wrapped, pos: seq<Value>, kw: Keywords, body: Outcome)
    requires Node(w, pos, kw).Success? && Node(w, pos, kw).value !in entries
    ensures var e := DefaultRead(entries, Node(w, pos, kw).value).1;
      Call(e, w, pos, kw, body) == (Returned(Ellipsis), e)
  {
  }

  /** A stored value of a subclass of `Exception` is not unwrapped on a hit: it is returned, not raised. */
  lemma SubclassIsReturnedOnReplay(v: Value)
    requires v.Exc? && v.cls != "Exception"
    ensures Replay(v) == Returned(v)
  {
  }
}
