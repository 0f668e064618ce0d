/**
 The first two tests of tests/test_simple_graph.py run through the tracking
 model: `g(a, b)` returns `f(a, b)`, where `f` either adds its arguments or
 raises a `RuntimeError`.
 */
module GraphTests {
  import opened PyObjects
  import opened Signatures
  import opened CallKeys
  import opened MemoGraph
  import opened Tracking
  import opened Accessors

  function Local(id: nat, test: string, name: string): Function {
    Function(id, name, test + ".<locals>." + name, "tests.test_simple_graph", [Param("a", None), Param("b", None)])
  }

  /** The key of a call of `f` with the arguments `(a, b)`, for the function `fn`. */
  function KeyOf(fn: Function, a: int, b: int): Key {
    [Int(a), Int(b), Func(fn)]
  }

  /** `KeyOf` is the key `from_call` builds for a two-parameter function called with `(a, b)`. */
  lemma KeyOfIsBuiltFromCall(kt: KeyType, a: int, b: int)
    requires |kt.func.params| == 2
    ensures FromCall(kt, [Int(a), Int(b)], []) == Success(KeyOf(kt.func, a, b))
  {
    var kw: Keywords := [];
    assert KeywordNames(kw) == [];
    assert Bindable(kt.func.params, [Int(a), Int(b)], kw);
    FromCallLayout(kt, [Int(a), Int(b)], kw);
    var key := FromCall(kt, [Int(a), Int(b)], kw).value;
    assert key[0] == Int(a) && key[1] == Int(b) && key[2] == Func(kt.func);
    assert key == KeyOf(kt.func, a, b);
  }

  /** What `return f(a, b)` does with the one value its call returned. */
  function Forward(vs: seq<Value>): Outcome {
    if |vs| == 1 then Returned(vs[0]) else Raised(Error("TypeError", "missing return value"))
  }

  /* ---------- test_simple_graph: f(a, b) = a + b ---------- */

  function AddF(): Function { Local(3, "test_simple_graph", "f") }
  function AddG(): Function { Local(4, "test_simple_graph", "g") }

  function AddCall(a: int, b: int): Call {
    Call(Success(KeyOf(AddF(), a, b)), [], (vs: seq<Value>) => Returned(Int(a + b)))
  }

  function AddCaller(a: int, b: int): Call {
    Call(Success(KeyOf(AddG(), a, b)), [AddCall(a, b)], Forward)
  }

  /** The handler after `g(1, 2)`: `g` called `f`, and both returned 3. */
  function AddAfter(): GraphState {
    var f := KeyOf(AddF(), 1, 2);
    var g := KeyOf(AddG(), 1, 2);
    GraphState([], map[f := {g}], map[g := {f}], map[f := Int(3), g := Int(3)])
  }

  lemma AddKeysDistinct()
    ensures KeyOf(AddF(), 1, 2) != KeyOf(AddG(), 1, 2)
  {
    assert KeyOf(AddF(), 1, 2)[2] != KeyOf(AddG(), 1, 2)[2];
  }

  /** The first `g(1, 2)` runs both functions and returns 3. */
  lemma AddFirstCall()
    ensures Exec(Fresh(), AddCaller(1, 2)) == (Returned(Int(3)), AddAfter())
  {
    var f := KeyOf(AddF(), 1, 2);
    var g := KeyOf(AddG(), 1, 2);
    AddKeysDistinct();
    var s1 := GraphState([g], map[], map[], map[]);
    LookupHitOrMiss(Fresh(), g);
    assert Fresh().stack + [g] == [g];
    assert Lookup(Fresh(), g) == (Ellipsis, s1);
    LeafMiss(s1, AddCall(1, 2));
    var s2 := GraphState([g], map[f := {g}], map[g := {f}], map[f := Int(3)]);
    assert EdgesOf(s1.parents, f) + {g} == {g};
    assert EdgesOf(s1.children, g) + {f} == {f};
    assert Exec(s1, AddCall(1, 2)) == (Returned(Int(3)), s2);
    var cs := AddCaller(1, 2).inner;
    assert cs[0] == AddCall(1, 2);
    assert [] + [Int(3)] == [Int(3)];
    assert ExecFrom(s1, cs, 0, []) == (Success([Int(3)]), s2);
    assert Store(s2, g, Int(3)) == (AddAfter(), None);
  }

  /** The second `g(1, 2)` is a hit: it returns 3 and changes nothing. */
  lemma AddSecondCall()
    ensures Exec(AddAfter(), AddCaller(1, 2)) == (Returned(Int(3)), AddAfter())
  {
    CachedCall(AddAfter(), AddCaller(1, 2));
  }

  /**
   What the test reads back inside the context: `g` has no parent entry
   and `f` has no child entry; `f`'s parents are `{g}` and `g`'s children
   `{f}`; both results are 3 and neither recorded an exception.
   */
  lemma AddGraphReadsBack()
    ensures var s := AddAfter();
      var f := KeyOf(AddF(), 1, 2);
      var g := KeyOf(AddG(), 1, 2);
      && g !in s.parents && f in s.parents
      && ParentsOf(s, g) == {} && ParentsOf(s, f) == {g}
      && f !in s.children && g in s.children
      && ChildrenOf(s, f) == {} && ChildrenOf(s, g) == {f}
      && f in s.retvals && g in s.retvals
      && ResultOf(s, f) == Returned(Int(3)) && ResultOf(s, g) == Returned(Int(3))
      && ExceptionOf(s, f) == Returned(NoneValue) && ExceptionOf(s, g) == Returned(NoneValue)
  {
    AddKeysDistinct();
  }

  /** Overwriting the cached value of `g(1, 2)` with 123 makes the next call return 123. */
  lemma TweakedCacheIsUsed()
    ensures var g := KeyOf(AddG(), 1, 2);
      var s := AddAfter().(retvals := AddAfter().retvals[g := Int(123)]);
      Exec(s, AddCaller(1, 2)).0 == Returned(Int(123))
  {
    var g := KeyOf(AddG(), 1, 2);
    var s := AddAfter().(retvals := AddAfter().retvals[g := Int(123)]);
    CachedCall(s, AddCaller(1, 2));
  }

  /* ---------- test_simple_graph_exception: f(a, b) raises ---------- */

  function FailF(): Function { Local(5, "test_simple_graph_exception", "f") }
  function FailG(): Function { Local(6, "test_simple_graph_exception", "g") }

  /** The error `f` raises, `RuntimeError("failure")`. */
  function RuntimeFailure(): Value { Exc("RuntimeError", [Str("failure")]) }

  function FailCall(a: int, b: int): Call {
    Call(Success(KeyOf(FailF(), a, b)), [], (vs: seq<Value>) => Raised(RuntimeFailure()))
  }

  function FailCaller(a: int, b: int): Call {
    Call(Success(KeyOf(FailG(), a, b)), [FailCall(a, b)], Forward)
  }

  /** The handler after the failing `g(1, 2)`: both calls recorded the same error wrapped in `Exception`. */
  function FailAfter(): GraphState {
    var f := KeyOf(FailF(), 1, 2);
    var g := KeyOf(FailG(), 1, 2);
    GraphState([], map[f := {g}], map[g := {f}], map[f := WrapFailure(RuntimeFailure()), g := WrapFailure(RuntimeFailure())])
  }

  lemma FailKeysDistinct()
    ensures KeyOf(FailF(), 1, 2) != KeyOf(FailG(), 1, 2)
  {
    assert KeyOf(FailF(), 1, 2)[2] != KeyOf(FailG(), 1, 2)[2];
  }

  /** The first `g(1, 2)` raises the very error `f` raised, and both calls record it. */
  lemma FailFirstCall()
    ensures Exec(Fresh(), FailCaller(1, 2)) == (Raised(RuntimeFailure()), FailAfter())
  {
    var f := KeyOf(FailF(), 1, 2);
    var g := KeyOf(FailG(), 1, 2);
    FailKeysDistinct();
    var s1 := GraphState([g], map[], map[], map[]);
    LookupHitOrMiss(Fresh(), g);
    assert Fresh().stack + [g] == [g];
    assert Lookup(Fresh(), g) == (Ellipsis, s1);
    LeafMiss(s1, FailCall(1, 2));
    var s2 := GraphState([g], map[f := {g}], map[g := {f}], map[f := WrapFailure(RuntimeFailure())]);
    assert EdgesOf(s1.parents, f) + {g} == {g};
    assert EdgesOf(s1.children, g) + {f} == {f};
    assert Exec(s1, FailCall(1, 2)) == (Raised(RuntimeFailure()), s2);
    var cs := FailCaller(1, 2).inner;
    assert cs[0] == FailCall(1, 2);
    assert ExecFrom(s1, cs, 0, []) == (Failure(RuntimeFailure()), s2);
    assert Store(s2, g, WrapFailure(RuntimeFailure())) == (FailAfter(), None);
  }

  /** The second `g(1, 2)` raises the same error again from the cache, running nothing. */
  lemma FailSecondCall()
    ensures Exec(FailAfter(), FailCaller(1, 2)) == (Raised(RuntimeFailure()), FailAfter())
  {
    CachedCall(FailAfter(), FailCaller(1, 2));
    assert FirstArg(WrapFailure(RuntimeFailure())) == Success(RuntimeFailure());
  }

  /**
   What the test reads back: both cached values are exactly `Exception`,
   `exception` gives the original error for both and `result` raises it;
   `g` has no parents and `f`'s parents are `{g}`.
   */
  lemma FailGraphReadsBack()
    ensures var s := FailAfter();
      var f := KeyOf(FailF(), 1, 2);
      var g := KeyOf(FailG(), 1, 2);
      && IsExactlyException(s.retvals[f]) && IsExactlyException(s.retvals[g])
      && ExceptionOf(s, f) == Returned(RuntimeFailure()) && ExceptionOf(s, g) == Returned(RuntimeFailure())
      && ResultOf(s, f) == Raised(RuntimeFailure()) && ResultOf(s, g) == Raised(RuntimeFailure())
      && ParentsOf(s, g) == {} && ParentsOf(s, f) == {g}
  {
    FailKeysDistinct();
  }
}
