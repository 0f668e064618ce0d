/**
 The scenarios of the repository's tests, stated over the model: the
 functions `f(x) = x` and `g(x, y) = f(x) + f(y)` and the keys of their calls.
 */
module Scenarios {
  import opened PyObjects
  import opened Signatures
  import opened CallKeys
  import opened MemoGraph

  function F(): Function {
    Function(1, "f", "test_simple_graph_bump.<locals>.f", "tests.test_simple_graph", [Param("x", None)])
  }

  function G(): Function {
    Function(2, "g", "test_simple_graph_bump.<locals>.g", "tests.test_simple_graph", [Param("x", None), Param("y", None)])
  }

  /** The key of `f(x)`. */
  function FKey(x: int): Key {
    [Int(x), Func(F())]
  }

  /** The key of `g(x, y)`. */
  function GKey(x: int, y: int): Key {
    [Int(x), Int(y), Func(G())]
  }

  /** `FKey` and `GKey` are the keys `from_call` builds for the calls `f(x)` and `g(x, y)`. */
  lemma KeysAreBuiltFromCalls(kf: KeyType, kg: KeyType, x: int, y: int)
    requires kf.func == F() && kg.func == G()
    ensures FromCall(kf, [Int(x)], []) == Success(FKey(x))
    ensures FromCall(kg, [Int(x), Int(y)], []) == Success(GKey(x, y))
  {
    var kw: Keywords := [];
    assert KeywordNames(kw) == [];
    assert Bindable(kf.func.params, [Int(x)], kw) && Bindable(kg.func.params, [Int(x), Int(y)], kw);
    FromCallLayout(kf, [Int(x)], kw);
    FromCallLayout(kg, [Int(x), Int(y)], kw);
    var fk := FromCall(kf, [Int(x)], kw).value;
    var gk := FromCall(kg, [Int(x), Int(y)], kw).value;
    assert fk[0] == Int(x) && fk[1] == Func(F());
    assert fk == FKey(x);
    assert gk[0] == Int(x) && gk[1] == Int(y) && gk[2] == Func(G());
    assert gk == GKey(x, y);
  }

  /** The handler after `g(1, 2)` and `g(1, 3)` have run to completion. */
  function AfterTwoCalls(): GraphState {
    GraphState([],
      map[FKey(1) := {GKey(1, 2), GKey(1, 3)}, FKey(2) := {GKey(1, 2)}, FKey(3) := {GKey(1, 3)}],
      map[GKey(1, 2) := {FKey(1), FKey(2)}, GKey(1, 3) := {FKey(1), FKey(3)}],
      map[FKey(1) := Int(1), FKey(2) := Int(2), GKey(1, 2) := Int(3), FKey(3) := Int(3), GKey(1, 3) := Int(4)])
  }

  /** Bumping `f(1)` evicts `f(1)` and both calls of `g`, which called it. */
  lemma ScenarioEvicted()
    ensures Evicted(AfterTwoCalls().parents, {FKey(1)}) == EvictedKeys()
  {
    var p := AfterTwoCalls().parents;
    var seeds := {FKey(1)};
    assert IsAncestor(p, seeds, FKey(1));
    AncestorOfParent(p, seeds, FKey(1), GKey(1, 2));
    AncestorOfParent(p, seeds, FKey(1), GKey(1, 3));
    assert GKey(1, 2) in Universe(p, seeds) && GKey(1, 3) in Universe(p, seeds);
    EvictedIs(p, seeds, {FKey(1), GKey(1, 2), GKey(1, 3)});
  }

  function EvictedKeys(): set<Key> {
    {FKey(1), GKey(1, 2), GKey(1, 3)}
  }

  lemma ScenarioParents()
    ensures Unlinked(AfterTwoCalls().parents, EvictedKeys()) == map[FKey(2) := {}, FKey(3) := {}]
  {
    var s := AfterTwoCalls();
    var u := Unlinked(s.parents, EvictedKeys());
    assert u.Keys == {FKey(2), FKey(3)};
    assert u[FKey(2)] == s.parents[FKey(2)] - EvictedKeys() == {};
    assert u[FKey(3)] == s.parents[FKey(3)] - EvictedKeys() == {};
  }

  lemma ScenarioChildren()
    ensures Without(AfterTwoCalls().children, EvictedKeys()) == map[]
  {
    assert Without(AfterTwoCalls().children, EvictedKeys()).Keys == {};
  }

  lemma ScenarioRetvals()
    ensures AfterTwoCalls().retvals - EvictedKeys() + map[FKey(1) := Int(10)] == map[FKey(2) := Int(2), FKey(3) := Int(3), FKey(1) := Int(10)]
  {
    assert AfterTwoCalls().retvals - EvictedKeys() == map[FKey(2) := Int(2), FKey(3) := Int(3)];
  }

  /**
   Bumping `f(1)` to 10 keeps `f(2)` and `f(3)`, leaves no children at all
   and empty parent sets for `f(2)` and `f(3)`.
   */
  lemma BumpScenario()
    ensures var t := Bumped(AfterTwoCalls(), map[FKey(1) := Int(10)]);
      && t.retvals == map[FKey(2) := Int(2), FKey(3) := Int(3), FKey(1) := Int(10)]
      && t.children == map[]
      && t.parents == map[FKey(2) := {}, FKey(3) := {}]
      && t.stack == []
  {
    var s := AfterTwoCalls();
    var changes := map[FKey(1) := Int(10)];
    ScenarioEvicted();
    BumpedBy(s, changes, EvictedKeys());
    var t := Bumped(s, changes);
    assert t.retvals == s.retvals - EvictedKeys() + changes;
    assert t.parents == Unlinked(s.parents, EvictedKeys());
    assert t.children == Without(s.children, EvictedKeys());
    ScenarioParents();
    ScenarioChildren();
    ScenarioRetvals();
  }
}
