/**
 The calls of the bump test of tests/test_simple_graph.py run through the
 tracking model: `f(x)` returns `x` and `g(x, y)` returns `f(x) + f(y)`.
 */
module GraphRuns {
  import opened PyObjects
  import opened CallKeys
  import opened MemoGraph
  import opened Tracking
  import opened Scenarios
  import opened Accessors

  /** `f(x)`: calls nothing and returns `x`. */
  function FCall(x: int): Call {
    Call(Success(FKey(x)), [], (vs: seq<Value>) => Returned(Int(x)))
  }

  /** `a + b` on the values the two calls returned. */
  function Sum(vs: seq<Value>): Outcome {
    if |vs| == 2 && vs[0].Int? && vs[1].Int? then Returned(Int(vs[0].i + vs[1].i))
    else Raised(Error("TypeError", "unsupported operand type(s) for +"))
  }

  /** `g(x, y)`: calls `f(x)` then `f(y)` and returns their sum. */
  function GCall(x: int, y: int): Call {
    Call(Success(GKey(x, y)), [FCall(x), FCall(y)], Sum)
  }

  /** The handler after `g(1, 2)` has run to completion. */
  function AfterFirstCall(): GraphState {
    GraphState([],
      map[FKey(1) := {GKey(1, 2)}, FKey(2) := {GKey(1, 2)}],
      map[GKey(1, 2) := {FKey(1), FKey(2)}],
      map[FKey(1) := Int(1), FKey(2) := Int(2), GKey(1, 2) := Int(3)])
  }

  /** Both functions are well behaved, so the general properties of calls apply to them. */
  lemma CallsProper(x: int, y: int)
    ensures Proper(FCall(x)) && Proper(GCall(x, y))
  {
    assert Proper(FCall(x)) && Proper(FCall(y));
  }

  lemma KeysDistinct()
    ensures FKey(1) != FKey(2) && FKey(1) != FKey(3) && FKey(2) != FKey(3)
    ensures forall x, a, b :: FKey(x) != GKey(a, b)
    ensures GKey(1, 2) != GKey(1, 3)
  {
    assert FKey(1)[0] != FKey(2)[0] && FKey(1)[0] != FKey(3)[0] && FKey(2)[0] != FKey(3)[0];
    assert GKey(1, 2)[1] != GKey(1, 3)[1];
  }

  /** `g(1, 2)` on a fresh handler returns 3 and leaves the handler of the first call. */
  lemma FirstCall()
    ensures Exec(Fresh(), GCall(1, 2)) == (Returned(Int(3)), AfterFirstCall())
  {
    var g := GKey(1, 2);
    var s1 := GraphState([g], map[], map[], map[]);
    LookupHitOrMiss(Fresh(), g);
    assert Fresh().stack + [g] == [g];
    assert Lookup(Fresh(), g) == (Ellipsis, s1);
    LeafMiss(s1, FCall(1));
    var s2 := GraphState([g], map[FKey(1) := {g}], map[g := {FKey(1)}], map[FKey(1) := Int(1)]);
    assert EdgesOf(s1.parents, FKey(1)) + {g} == {g};
    assert EdgesOf(s1.children, g) + {FKey(1)} == {FKey(1)};
    assert Exec(s1, FCall(1)) == (Returned(Int(1)), s2);
    KeysDistinct();
    LeafMiss(s2, FCall(2));
    var s3 := GraphState([g], map[FKey(1) := {g}, FKey(2) := {g}], map[g := {FKey(1), FKey(2)}], map[FKey(1) := Int(1), FKey(2) := Int(2)]);
    assert EdgesOf(s2.parents, FKey(2)) + {g} == {g};
    assert EdgesOf(s2.children, g) + {FKey(2)} == {FKey(1), FKey(2)};
    assert FKey(2) !in s2.retvals;
    var t := Exec(s2, FCall(2)).1;
    assert t.parents == s3.parents && t.children == s3.children && t.retvals == s3.retvals;
    assert Exec(s2, FCall(2)) == (Returned(Int(2)), s3);
    var cs := GCall(1, 2).inner;
    assert cs[0] == FCall(1) && cs[1] == FCall(2);
    assert ExecFrom(s3, cs, 2, [Int(1), Int(2)]) == (Success([Int(1), Int(2)]), s3);
    assert [Int(1)] + [Int(2)] == [Int(1), Int(2)];
    assert ExecFrom(s2, cs, 1, [Int(1)]) == (Success([Int(1), Int(2)]), s3);
    assert [] + [Int(1)] == [Int(1)];
    assert ExecFrom(s1, cs, 0, []) == (Success([Int(1), Int(2)]), s3);
    assert Sum([Int(1), Int(2)]) == Returned(Int(3));
    assert Store(s3, g, Int(3)) == (AfterFirstCall(), None);
  }

  /** The handler while `g(1, 3)` runs: before its first call, after `f(1)`, after `f(3)`. */
  function SecondStarted(): GraphState {
    AfterFirstCall().(stack := [GKey(1, 3)])
  }

  function SecondAfterF1(): GraphState {
    GraphState([GKey(1, 3)],
      map[FKey(1) := {GKey(1, 2), GKey(1, 3)}, FKey(2) := {GKey(1, 2)}],
      map[GKey(1, 2) := {FKey(1), FKey(2)}, GKey(1, 3) := {FKey(1)}],
      AfterFirstCall().retvals)
  }

  function SecondAfterF3(): GraphState {
    GraphState([GKey(1, 3)], AfterTwoCalls().parents, AfterTwoCalls().children, AfterFirstCall().retvals[FKey(3) := Int(3)])
  }

  /** Inside `g(1, 3)`, `f(1)` is a hit that only gains the edge from `g(1, 3)`. */
  lemma SecondCallHitsF1()
    ensures Exec(SecondStarted(), FCall(1)) == (Returned(Int(1)), SecondAfterF1())
  {
    var g := GKey(1, 3);
    var s1 := SecondStarted();
    KeysDistinct();
    var l := Lookup(s1, FKey(1)).1;
    assert EdgesOf(s1.parents, FKey(1)) + {g} == {GKey(1, 2), g};
    assert EdgesOf(s1.children, g) + {FKey(1)} == {FKey(1)};
    assert l.parents == SecondAfterF1().parents && l.children == SecondAfterF1().children && l.retvals == SecondAfterF1().retvals;
    assert Lookup(s1, FKey(1)) == (Int(1), SecondAfterF1());
  }

  /** Inside `g(1, 3)`, `f(3)` misses and runs. */
  lemma SecondCallRunsF3()
    ensures Exec(SecondAfterF1(), FCall(3)) == (Returned(Int(3)), SecondAfterF3())
  {
    var g := GKey(1, 3);
    var s2 := SecondAfterF1();
    KeysDistinct();
    assert FKey(3) !in s2.retvals;
    LeafMiss(s2, FCall(3));
    assert EdgesOf(s2.parents, FKey(3)) + {g} == {g};
    assert EdgesOf(s2.children, g) + {FKey(3)} == {FKey(1), FKey(3)};
    var t := Exec(s2, FCall(3)).1;
    assert t.parents == SecondAfterF3().parents && t.children == SecondAfterF3().children && t.retvals == SecondAfterF3().retvals;
  }

  /** The body of `g(1, 3)`: `f(1)` then `f(3)`, returning 1 and 3. */
  lemma SecondCallBody()
    ensures ExecFrom(SecondStarted(), GCall(1, 3).inner, 0, []) == (Success([Int(1), Int(3)]), SecondAfterF3())
  {
    SecondCallHitsF1();
    SecondCallTail();
    var cs := GCall(1, 3).inner;
    assert cs[0] == FCall(1);
    assert [] + [Int(1)] == [Int(1)];
  }

  /** The rest of the body of `g(1, 3)` after `f(1)` returned 1: `f(3)` runs and returns 3. */
  lemma SecondCallTail()
    ensures ExecFrom(SecondAfterF1(), GCall(1, 3).inner, 1, [Int(1)]) == (Success([Int(1), Int(3)]), SecondAfterF3())
  {
    SecondCallRunsF3();
    var cs := GCall(1, 3).inner;
    assert cs[1] == FCall(3);
    assert [Int(1)] + [Int(3)] == [Int(1), Int(3)];
  }

  /**
   `g(1, 3)` next returns 4: `f(1)` is a hit, `f(3)` runs, and the handler
   ends as `AfterTwoCalls`.
   */
  lemma SecondCall()
    ensures Exec(AfterFirstCall(), GCall(1, 3)) == (Returned(Int(4)), AfterTwoCalls())
  {
    var g := GKey(1, 3);
    SecondCallMisses();
    SecondCallBody();
    assert Sum([Int(1), Int(3)]) == Returned(Int(4));
    SecondCallStores();
  }

  /** `g(1, 3)` is not cached after the first call: the lookup only pushes its key. */
  lemma SecondCallMisses()
    ensures Lookup(AfterFirstCall(), GKey(1, 3)) == (Ellipsis, SecondStarted())
  {
    var g := GKey(1, 3);
    var s0 := AfterFirstCall();
    LookupHitOrMiss(s0, g);
    KeysDistinct();
    assert s0.stack + [g] == [g];
  }

  /** Storing 4 for `g(1, 3)` pops it and leaves the handler `AfterTwoCalls`. */
  lemma SecondCallStores()
    ensures Store(SecondAfterF3(), GKey(1, 3), Int(4)) == (AfterTwoCalls(), None)
  {
    KeysDistinct();
  }

  /* ---------- After the bump ---------- */

  /** The handler `bump({f(1): 10})` returns, as the bump scenario computes it. */
  function BumpedHandler(): GraphState {
    GraphState([], map[FKey(2) := {}, FKey(3) := {}], map[], map[FKey(2) := Int(2), FKey(3) := Int(3), FKey(1) := Int(10)])
  }

  lemma BumpedHandlerIs()
    ensures Bumped(AfterTwoCalls(), map[FKey(1) := Int(10)]) == BumpedHandler()
  {
    BumpScenario();
  }

  /**
   What the test reads back from the bumped handler: `f(2)` and `f(3)` have
   no parents, no key has children, and the results are 2, 3 and 10.
   */
  lemma BumpedReadsBack()
    ensures var b := Bumped(AfterTwoCalls(), map[FKey(1) := Int(10)]);
      && ParentsOf(b, FKey(2)) == {} && ParentsOf(b, FKey(3)) == {}
      && b.children == map[]
      && ResultOf(b, FKey(2)) == Returned(Int(2))
      && ResultOf(b, FKey(3)) == Returned(Int(3))
      && ResultOf(b, FKey(1)) == Returned(Int(10))
  {
    BumpedHandlerIs();
    KeysDistinct();
  }

  function ThirdAfterF1(): GraphState {
    GraphState([GKey(1, 2)], map[FKey(2) := {}, FKey(3) := {}, FKey(1) := {GKey(1, 2)}], map[GKey(1, 2) := {FKey(1)}], BumpedHandler().retvals)
  }

  function ThirdAfterF2(): GraphState {
    GraphState([GKey(1, 2)], map[FKey(2) := {GKey(1, 2)}, FKey(3) := {}, FKey(1) := {GKey(1, 2)}], map[GKey(1, 2) := {FKey(1), FKey(2)}], BumpedHandler().retvals)
  }

  lemma ThirdCallHitsF1()
    ensures Exec(BumpedHandler().(stack := [GKey(1, 2)]), FCall(1)) == (Returned(Int(10)), ThirdAfterF1())
  {
    var s := BumpedHandler().(stack := [GKey(1, 2)]);
    KeysDistinct();
    CachedCall(s, FCall(1));
    assert EdgesOf(s.parents, FKey(1)) + {GKey(1, 2)} == {GKey(1, 2)};
    assert EdgesOf(s.children, GKey(1, 2)) + {FKey(1)} == {FKey(1)};
    var t := Exec(s, FCall(1)).1;
    assert t.parents == ThirdAfterF1().parents && t.children == ThirdAfterF1().children;
  }

  lemma ThirdCallHitsF2()
    ensures Exec(ThirdAfterF1(), FCall(2)) == (Returned(Int(2)), ThirdAfterF2())
  {
    var s := ThirdAfterF1();
    KeysDistinct();
    CachedCall(s, FCall(2));
    assert EdgesOf(s.parents, FKey(2)) + {GKey(1, 2)} == {GKey(1, 2)};
    assert EdgesOf(s.children, GKey(1, 2)) + {FKey(2)} == {FKey(1), FKey(2)};
    var t := Exec(s, FCall(2)).1;
    assert t.parents == ThirdAfterF2().parents && t.children == ThirdAfterF2().children;
  }

  lemma ThirdCallBody()
    ensures ExecFrom(BumpedHandler().(stack := [GKey(1, 2)]), GCall(1, 2).inner, 0, []) == (Success([Int(10), Int(2)]), ThirdAfterF2())
  {
    ThirdCallHitsF1();
    ThirdCallHitsF2();
    var cs := GCall(1, 2).inner;
    assert cs[0] == FCall(1) && cs[1] == FCall(2);
    assert [Int(10)] + [Int(2)] == [Int(10), Int(2)];
    assert ExecFrom(ThirdAfterF1(), cs, 1, [Int(10)]) == (Success([Int(10), Int(2)]), ThirdAfterF2());
    assert [] + [Int(10)] == [Int(10)];
  }

  /**
   On the bumped handler `g(1, 2)` is evicted, so it runs again: `f(1)` now
   answers 10 and `f(2)` still answers 2 from the cache, and `g(1, 2)`
   returns and caches 12.
   */
  lemma RecomputeAfterBump()
    ensures var (o, t) := Exec(Bumped(AfterTwoCalls(), map[FKey(1) := Int(10)]), GCall(1, 2));
      && o == Returned(Int(12))
      && t.stack == [] && GKey(1, 2) in t.retvals && t.retvals[GKey(1, 2)] == Int(12)
  {
    BumpedHandlerIs();
    ThirdCallMisses();
    ThirdCallBody();
    assert Sum([Int(10), Int(2)]) == Returned(Int(12));
    ThirdCallStores();
  }

  /** `g(1, 2)` was evicted by the bump: the lookup only pushes its key. */
  lemma ThirdCallMisses()
    ensures Lookup(BumpedHandler(), GKey(1, 2)) == (Ellipsis, BumpedHandler().(stack := [GKey(1, 2)]))
  {
    var b := BumpedHandler();
    var g := GKey(1, 2);
    KeysDistinct();
    LookupHitOrMiss(b, g);
    assert b.stack + [g] == [g];
  }

  /** Storing 12 for `g(1, 2)` raises nothing, caches 12 and empties the stack. */
  lemma ThirdCallStores()
    ensures var (t, err) := Store(ThirdAfterF2(), GKey(1, 2), Int(12));
      && err.None? && t.stack == [] && GKey(1, 2) in t.retvals && t.retvals[GKey(1, 2)] == Int(12)
  {
    var g := GKey(1, 2);
    StoreCachesAndPops(ThirdAfterF2(), g, Int(12));
    assert [g][..0] == [];
  }
}
