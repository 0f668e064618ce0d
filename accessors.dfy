/**
 The accessors of a call key (src/graphty/key_type.py, src/graphty/node.py).

 `parents`, `children`, `result` and `exception` look the key up in the
 maps of the active handler, which must be a graph handler; `func` and
 `funcname` read the function at the end of the key.
 */
module Accessors {
  import opened PyObjects
  import opened Signatures
  import opened CallKeys
  import opened MemoGraph
  import opened Handlers
  import Shifter

  /** The state of the active handler, or the AttributeError of a handler without the graph maps. */
  function ActiveGraph(h: Handler, w: World, attribute: string): (r: Result<GraphState, Value>)
    requires Covers(h, w)
    ensures r.Success? <==> h.Graph?
    ensures r.Success? ==> r.value == w.graphs[h.graph]
  {
    if h.Graph? then Success(w.graphs[h.graph])
    else Failure(Error("AttributeError", "object has no attribute '" + attribute + "'"))
  }

  function KeyError(key: Key): Value {
    Exc("KeyError", [Tuple(key)])
  }

  /** `key.parents`: the recorded callers of `key`, empty when it has no entry. */
  function ParentsOf(s: GraphState, key: Key): set<Key> {
    EdgesOf(s.parents, key)
  }

  /** `key.children`: the recorded callees of `key`, empty when it has no entry. */
  function ChildrenOf(s: GraphState, key: Key): set<Key> {
    EdgesOf(s.children, key)
  }

  /**
   `key.result`: a KeyError when nothing is recorded; for any `Exception`
   instance recorded (by `isinstance`, so subclasses too) a raise of its
   first argument; otherwise the recorded value.
   */
  function ResultOf(s: GraphState, key: Key): (o: Outcome)
    ensures key !in s.retvals ==> o == Raised(KeyError(key))
    ensures key in s.retvals && !s.retvals[key].Exc? ==> o == Returned(s.retvals[key])
    ensures key in s.retvals && s.retvals[key].Exc? && |s.retvals[key].args| > 0 ==> o == Raised(RaiseOf(s.retvals[key].args[0]))
  {
    if key !in s.retvals then Raised(KeyError(key))
    else
      var v := s.retvals[key];
      if v.Exc? then
        var first := FirstArg(v);
        if first.Success? then Raised(RaiseOf(first.value)) else Raised(first.error)
      else Returned(v)
  }

  /**
   `key.exception`: a KeyError when nothing is recorded; the first argument
   of a recorded `Exception` instance; otherwise `None`.
   */
  function ExceptionOf(s: GraphState, key: Key): (o: Outcome)
    ensures key !in s.retvals ==> o == Raised(KeyError(key))
    ensures key in s.retvals && !s.retvals[key].Exc? ==> o == Returned(NoneValue)
    ensures key in s.retvals && s.retvals[key].Exc? && |s.retvals[key].args| > 0 ==> o == Returned(s.retvals[key].args[0])
  {
    if key !in s.retvals then Raised(KeyError(key))
    else
      var v := s.retvals[key];
      if v.Exc? then
        var first := FirstArg(v);
        if first.Success? then Returned(first.value) else Raised(first.error)
      else Returned(NoneValue)
  }

  /** `key.func` in src/graphty/node.py: the function object at the end of the key. */
  function KeyFunction(key: Key): (r: Option<Function>)
    ensures r.Some? <==> key != [] && key[|key| - 1].Func?
  {
    if key != [] && key[|key| - 1].Func? then Some(key[|key| - 1].f) else None
  }

  /** `funcname` (`:` separator, src/graphty/node.py) and `func` (`.` separator, src/graphty/key_type.py). */
  function FunctionName(key: Key, sep: string): Option<string> {
    var f := KeyFunction(key);
    if f.Some? then Some(Prefix(f.value, sep)) else None
  }

  /* ---------- Properties ---------- */

  /**
   On a key built from a call, `func` is the function called and the names
   follow the `<locals>` rule: the bare name for a local function, else the
   module and qualified name joined by the separator.
   */
  lemma FunctionOfKey(kt: KeyType, pos: seq<Value>, kw: Keywords, sep: string)
    requires FromCall(kt, pos, kw).Success?
    ensures KeyFunction(FromCall(kt, pos, kw).value) == Some(kt.func)
    ensures var name := FunctionName(FromCall(kt, pos, kw).value, sep).value;
      && (Contains(kt.func.qualname, "<locals>") ==> name == kt.func.name)
      && (!Contains(kt.func.qualname, "<locals>") ==> name == kt.func.moduleName + sep + kt.func.qualname)
  {
    FromCallLayout(kt, pos, kw);
  }

  /**
   The key of a call of a function wrapped by `shift` exists exactly when
   the arguments bind. The key type's `__func__` is the wrapped function,
   the key's trailing `func__` field holds it, and the key's repr starts
   with the `<locals>`-rule name built with the `.` separator.
   */
  lemma WrappedKeyNamesFunction(f: Function, pos: seq<Value>, kw: Keywords)
    requires Shifter.Shift(f).Success?
    ensures Shifter.Shift(f).value.key.func == f
    ensures var fmt := Shifter.Shift(f).value.key.reprFormat;
      |Prefix(f, ".") + "("| <= |fmt| && fmt[..|Prefix(f, ".") + "("|] == Prefix(f, ".") + "("
    ensures var node := Shifter.Node(Shifter.Shift(f).value, pos, kw);
      && (node.Success? <==> Bindable(f.params, pos, kw))
      && (node.Success? ==> node.value != [] && node.value[|node.value| - 1] == Func(f))
      && (node.Success? ==> KeyFunction(node.value) == Some(f) && FunctionName(node.value, ".") == Some(Prefix(f, ".")))
  {
    var w := Shifter.Shift(f).value;
    var head := Prefix(f, ".") + "(";
    assert w.key.reprFormat == head + (FieldsFormat(Names(f.params)) + ")");
    if FromCall(w.key, pos, kw).Success? {
      FunctionOfKey(w.key, pos, kw, ".");
    }
  }

  /**
   What a call recorded reads back through the accessors: a failure wrapped
   in `Exception` is raised again by `result` and given by `exception`; a
   value that is no exception is given by `result`, with `exception` None.
   */
  lemma AccessorsDecodeRecorded(s: GraphState, key: Key, o: Outcome)
    requires key in s.retvals && s.retvals[key] == Shifter.Recorded(o)
    requires o.Raised? ==> o.error.Exc?
    requires o.Returned? ==> !o.value.Exc?
    ensures ResultOf(s, key) == o
    ensures ExceptionOf(s, key) == if o.Raised? then Returned(o.error) else Returned(NoneValue)
  {
  }

  /**
   The accessors test `isinstance` where the wrapper tests the exact type: a
   recorded instance of a subclass of `Exception` is returned again by a
   call, while `result` raises its first argument and `exception` gives it.
   */
  lemma AccessorsUnwrapSubclasses(s: GraphState, key: Key)
    requires key in s.retvals && s.retvals[key].Exc? && s.retvals[key].cls != "Exception" && |s.retvals[key].args| > 0
    ensures Shifter.Replay(s.retvals[key]) == Returned(s.retvals[key])
    ensures ResultOf(s, key) == Raised(RaiseOf(s.retvals[key].args[0]))
    ensures ExceptionOf(s, key) == Returned(s.retvals[key].args[0])
  {
  }

  /** A key first looked up with no call in progress gets no parent entry, so its parent set is empty. */
  lemma TopLevelHasNoParents(s: GraphState, key: Key)
    requires s.stack == [] && key !in s.parents
    ensures key !in Lookup(s, key).1.parents
    ensures ParentsOf(Lookup(s, key).1, key) == {}
  {
    LookupRecordsEdge(s, key);
  }

  /** A key looked up during a call lists the caller among its parents, and the caller lists it among its children. */
  lemma NestedLookupLinks(s: GraphState, key: Key)
    requires s.stack != []
    ensures Top(s.stack) in ParentsOf(Lookup(s, key).1, key)
    ensures key in ChildrenOf(Lookup(s, key).1, Top(s.stack))
  {
    LookupRecordsEdge(s, key);
  }
}
