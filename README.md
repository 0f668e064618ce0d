# graphty call memoisation, modelled in Dafny

graphty and snake.shifter intercept calls of wrapped Python functions.
Each call is turned into a *call key*: the bound argument values in
declared order, followed by the function itself. The key is handed to the
*active handler*, the top of a global stack of handlers. A handler answers
`Ellipsis` when the call must run. Otherwise it answers the cached value,
which is replayed to the caller; a value whose type is exactly `Exception`
is the recorded form of a failure, and its first argument is raised again.
After a call runs, the wrapper stores its return value, or its error
wrapped in `Exception`, and then returns or re-raises.

The `GraphHandler` of the graph tests records the call graph while calls
run:

- it keeps a stack of the calls in progress;
- it keeps symmetric `parents` and `children` edge maps and a `retvals` cache;
- `bump(changes)` builds a new handler in which every changed key and all
  of its transitive callers are evicted, the stale edges are cut, and the
  new values are cached.

The model has one module per part of the program:

| file | module | what it holds |
|---|---|---|
| pyobjects.dfy | PyObjects | a small universe of Python values (`Ellipsis`, `None`, ints, strings, functions, tuples, exception objects) and call outcomes |
| signatures.dfy | Signatures | binding positional and keyword arguments to a parameter list and applying defaults, with the TypeErrors of a failed binding |
| call_keys.dfy | CallKeys | key types (`make_key_type`, `make_node_type`), `from_call`, the repr format, `kwargs` |
| graph.dfy | MemoGraph | the graph handler: a class over a `GraphState` value, lookups, stores and the eviction sweep of `bump` |
| handlers.dfy | Handlers | the base `Handler`, `NullHandler`, `CompositeHandler` and a dict cache, as a pure reference semantics plus the methods that update the handler objects |
| context.dfy | Contexts | the global handler stack, `Context.__enter__`/`__exit__` and `get_handler` |
| shifter.dfy | Shifter | `shift` and one call of the wrapper against a dict handler |
| accessors.dfy | Accessors | the key accessors `parents`, `children`, `result`, `exception`, `func`, `funcname` |
| tracking.dfy | Tracking | trees of nested wrapped calls run against a graph handler |
| scenarios.dfy, graph_runs.dfy, graph_tests.dfy | Scenarios, GraphRuns, GraphTests | the three tests of tests/test_simple_graph.py worked through the model |

Functions whose laws are expressions become Dafny functions. The graph
handler, the dict cache, the handler stack and the context are classes
whose methods update their fields. Each method is proved against the
function that specifies its effect: `GraphHandler.GetItem` against
`Lookup`, `GraphHandler.Bump` against `Bumped`, `Tracking.Track` against
`Exec`, and so on. The properties are then proved about those functions.

A call whose arguments do not fit raises the `TypeError` of
`Signature.bind`.

## Model

| member | source | states |
|---|---|---|
| Signatures.BindMeetsSlotRule | src/graphty/node.py:27-28 | binding succeeds exactly when the call satisfies the slot rule: no repeated keyword, no keyword naming a positional slot, not too many positionals, no unknown keyword, every later parameter given by keyword or a default; the bound values are the positionals, then each keyword value or default |
| Signatures.ExplicitDefaultBindsSame | src/graphty/key_type.py:15-19 | passing a parameter's default explicitly by keyword binds exactly as leaving it out, errors included |
| Signatures.PositionalOrKeyword | src/snake/shifter/key_type.py:12-16 | giving the next parameter positionally or by its name binds the same, errors included |
| CallKeys.NamedTupleCheckIsValidLayout | src/graphty/node.py:102-107 | the namedtuple construction accepts the type and field names exactly when they are identifiers, not keywords, do not start with `_` and do not repeat |
| CallKeys.Defaults | src/graphty/key_type.py:92 | one default per parameter, in order; the parameter's own default, or the empty marker |
| CallKeys.MakeKeyType | src/graphty/key_type.py:68-106 | the key type exists exactly when the namedtuple layout is valid, and otherwise the result is a ValueError; its fields are the parameter names followed by `func__`; its defaults are the parameters' defaults followed by the function; it keeps the function and the repr format of the prefix rule |
| CallKeys.FromCallLayout | src/graphty/node.py:25-29 | `from_call` succeeds exactly when the arguments bind, and otherwise the result is a TypeError; the key holds one value per parameter (the positionals first, then keyword values or defaults) and then the function |
| CallKeys.KeyDeterminesCall | src/graphty/node.py:97-108 | two keys are equal exactly when they name the same function and the same bound values, so keys of different functions never collide |
| CallKeys.ExplicitDefaultSameKey | src/graphty/node.py:27-28 | `f(1)` and `f(1, b=default)` give the same key |
| CallKeys.PositionalOrKeywordSameKey | src/snake/shifter/key_type.py:14-16 | `f(1, 2)` and `f(1, b=2)` give the same key |
| CallKeys.FormatReprFormat | src/graphty/node.py:86-95 | the repr format renders as the prefix, `(`, `name=repr(value)` for every parameter separated by `, `, and `)` |
| CallKeys.RenderNamesEveryArgument | src/graphty/node.py:31-33 | the repr of a key built by `from_call` names every parameter with its bound value and leaves out the trailing function |
| CallKeys.KwargsNamesEveryParameter | src/graphty/node.py:61-64 | `kwargs` has exactly the field names other than the trailing function as keys, each mapped to the repr of its own value |
| MemoGraph.RecordEdge | tests/test_simple_graph.py:38-40 | recording the caller edge touches neither the stack nor the cache |
| MemoGraph.LookupHitOrMiss | tests/test_simple_graph.py:42-46 | a hit answers the cached value and leaves the stack alone; a miss answers `Ellipsis` and pushes the key; the cache never changes |
| MemoGraph.LookupRecordsEdge | tests/test_simple_graph.py:38-40 | a lookup adds exactly the edge from the top of the stack to the key, and no edge on an empty stack; edge entries appear only for the edge's two ends, so a top-level key gets no parent entry |
| MemoGraph.LookupKeepsSymmetric | tests/test_simple_graph.py:36-46 | a lookup keeps `parents` and `children` mirror images of each other |
| MemoGraph.StoreCachesAndPops | tests/test_simple_graph.py:48-51 | a store caches the value and pops exactly the top stack entry, with the edges unchanged; on an empty stack the value is cached and the pop raises an IndexError |
| MemoGraph.StoreKeepsSymmetric | tests/test_simple_graph.py:48-51 | a store keeps the edge maps symmetric |
| MemoGraph.MissThenStoreBalances | tests/test_simple_graph.py:36-51 | a miss followed by a store leaves the stack as it was with the value cached, and the next lookup of the key hits with that value |
| MemoGraph.EvictedIsLeastClosed | tests/test_simple_graph.py:67-70 | the evicted set holds the changed keys, holds every recorded parent of its members, and lies inside every set with those two properties |
| MemoGraph.BumpKeepsUnrelated | tests/test_simple_graph.py:67-79 | a key that is neither changed nor a transitive caller of a changed key keeps its cached value (or its absence) and its children |
| MemoGraph.BumpAppliesChanges | tests/test_simple_graph.py:71-79 | after a bump, each changed key holds its new value, every other evicted key is uncached, and the stack is empty |
| MemoGraph.BumpSeversEvicted | tests/test_simple_graph.py:68-76 | after a bump, no evicted key has an edge entry, and no remaining parent or child set mentions one |
| MemoGraph.BumpKeepsSymmetric | tests/test_simple_graph.py:53-81 | a bump of a symmetric handler yields a symmetric handler |
| MemoGraph.ListOf | tests/test_simple_graph.py:67 | `list(changes.keys())` holds exactly the keys of the set, each once, in some order |
| MemoGraph.Evict | tests/test_simple_graph.py:67-76 | the worklist sweep leaves parents without the evicted keys (and without them in any parent set), children and cached values without the evicted keys, where the evicted set is the least ancestor-closed set around the changed keys |
| MemoGraph.RemoveParent | tests/test_simple_graph.py:74-76 | the loop over an evicted key's children removes that key from the parent set of each child with an entry, and from no other set |
| MemoGraph.GraphHandler.constructor | tests/test_simple_graph.py:29-34 | a new handler has an empty stack, no edges and an empty cache |
| MemoGraph.GraphHandler.GetItem | tests/test_simple_graph.py:36-46 | `handler[key]` answers and updates the handler as `Lookup` says, and keeps the handler symmetric |
| MemoGraph.GraphHandler.SetItem | tests/test_simple_graph.py:48-51 | `handler[key] = value` updates the handler as `Store` says, and keeps it symmetric |
| MemoGraph.GraphHandler.Bump | tests/test_simple_graph.py:53-81 | `bump` returns a new symmetric handler whose state is `Bumped`, and leaves its receiver unchanged |
| Handlers.DictCache.constructor | tests/test_simple_funcs.py:21 | a new dict handler (`defaultdict(lambda: Ellipsis)`) is empty |
| Handlers.DefaultRead | tests/test_simple_funcs.py:21 | a read of a `defaultdict(lambda: Ellipsis)` leaves the key present holding the value read; a present key answers its value and changes nothing; an absent key answers `Ellipsis`, and only that entry is added |
| Handlers.DictCache.GetItem | tests/test_simple_funcs.py:21-25 | `handler[key]` on a dict handler answers and updates its entries as `DefaultRead` says |
| Handlers.CacheReadRemembers | tests/test_compose.py:26-36 | after a dict handler is read, the key is in it with the value answered, and a second read answers the same and changes nothing |
| Handlers.DictCache.SetItem | tests/test_simple_funcs.py:21-25 | writing a dict handler stores the value under the key and changes no other entry |
| Handlers.Query | src/graphty/compose.py:14-21 | a read adds no handler; a dict handler can only gain the absent key as `Ellipsis`; every graph and dict handler the tree does not reach is left unchanged |
| Handlers.QueryFrom | src/graphty/compose.py:16-21 | the first-match loop of a composite read adds no handler, and changes a dict handler only by adding the absent key as `Ellipsis`; every graph and dict handler the list does not reach is left unchanged |
| Handlers.Assign | src/graphty/compose.py:23-25 | a write adds no handlers, and raises nothing when no graph handler is reached |
| Handlers.AssignFrom | src/graphty/compose.py:24-25 | the loop of a composite write adds no handlers, and raises nothing when no graph handler is reached |
| Handlers.Get | src/graphty/handler.py:24-28 | reading a handler object answers and changes the handler objects as `Query` says |
| Handlers.GetFirst | src/graphty/compose.py:14-21 | the composite read loop answers and changes the handlers as the first-match `QueryFrom` says |
| Handlers.Put | src/graphty/handler.py:19-22 | writing a handler object changes the handler objects as `Assign` says |
| Handlers.PutEach | src/graphty/compose.py:23-25 | the composite write loop changes the handlers as `AssignFrom` says |
| Handlers.NullIgnoresNext | src/graphty/null.py:17-23 | a `NullHandler` reads `Ellipsis` and writes nothing, whatever its `next` is; a base handler forwards reads and writes to its `next`, and without one reads `Ellipsis` and writes nothing |
| Handlers.QuerySplit | src/graphty/compose.py:16-19 | a composite read answers from the first handler that does not answer `Ellipsis`, and handlers after it are not asked |
| Handlers.NeverAnswersIsEllipsis | src/graphty/null.py:17-19 | a handler whose whole chain ends in null handlers or missing `next` answers `Ellipsis` |
| Handlers.AllMissIsEllipsis | src/graphty/compose.py:21 | a composite of handlers that never answer reads `Ellipsis`, the empty composite included |
| Handlers.AssignKeeps | src/graphty/compose.py:23-25 | a write keeps any value already held for the key and changes no handler it does not reach |
| Handlers.AssignFromKeeps | src/graphty/compose.py:24-25 | the composite write loop keeps values already held for the key and changes no handler outside the list |
| Handlers.AssignReachesAll | src/graphty/compose.py:23-25 | a write that raises nothing leaves the value stored in every dict and graph handler it reaches |
| Handlers.AssignFromReachesAll | src/graphty/compose.py:24-25 | a composite write that raises nothing holds the value in every handler of the list |
| Handlers.ReadAfterWrite | tests/test_compose.py:26-36 | when every handler reached holds the value, a read answers it if some handler in the chain keeps values, and `Ellipsis` otherwise |
| Handlers.ReadFromAfterWrite | tests/test_compose.py:26-36 | the composite form of `ReadAfterWrite`: a read answers the value exactly when some handler of the list keeps values |
| Handlers.HoldsFrom | src/graphty/compose.py:24-25 | a value held by a composite is held by every handler of its list |
| Handlers.WriteThenRead | tests/test_compose.py:26-36 | writing through a layered handler that reaches a cache, then reading, answers the value written |
| Handlers.QueryKeepsSymmetric | src/graphty/compose.py:14-21 | reads through any handler tree keep every graph handler symmetric |
| Handlers.QueryFromKeepsSymmetric | src/graphty/compose.py:16-19 | the composite read loop keeps every graph handler symmetric |
| Handlers.AssignKeepsSymmetric | src/graphty/compose.py:23-25 | writes through any handler tree keep every graph handler symmetric |
| Handlers.AssignFromKeepsSymmetric | src/graphty/compose.py:24-25 | the composite write loop keeps every graph handler symmetric |
| Contexts.PushThenPop | src/graphty/context.py:32-51 | the pop of `__exit__` undoes the push of `__enter__`, and in between the pushed handler is the one `get_handler` answers |
| Contexts.InstalledActsAsComposite | src/graphty/context.py:25-30 | a single handler is installed as it is; several are wrapped in a `CompositeHandler` in the order given; either way the installed handler reads and writes as the composite of all of them |
| Contexts.HandlerStack.constructor | src/graphty/context.py:23 | the stack starts out holding exactly one `NullHandler`, which is then the active handler |
| Contexts.Context.constructor | src/graphty/context.py:25-30 | the context installs the one handler, or the composite of all handlers given |
| Contexts.Context.Enter | src/graphty/context.py:32-36 | `__enter__` pushes the installed handler and returns it, and it is then the active handler |
| Contexts.Context.Exit | src/graphty/context.py:38-46 | `__exit__` pops exactly one entry and returns `False`, so an exception propagates; on an empty stack it raises the pop's IndexError and changes nothing |
| Contexts.BlocksBalanced | src/graphty/context.py:32-46 | statements made of nested `with` blocks and `raise` leave the stack as they found it, whether they finish normally or an error leaves them; the error that escapes is the first one raised; inside each block `get_handler` gives that block's own handler, and after a block left normally the handler active before it |
| Contexts.BlockBalanced | tests/test_context.py:19-26 | one `with` block leaves the stack as it found it on both exit paths, makes its own handler active inside it, and after a normal exit the previous handler is active again |
| Contexts.RaisingBlockRestores | src/graphty/context.py:38-46 | when the body of a block raises, `__exit__` still pops the block's handler, and the body's own error propagates |
| Shifter.Node | src/graphty/node.py:121-142 | `node(func, ...)` is a key exactly when the arguments bind, and otherwise the TypeError of the call; the key ends with the function |
| Shifter.Invoke | src/snake/shifter/wrapper.py:33-50 | a call reads the last handler of the stack (an IndexError when there is none) and updates that handler and answers as one wrapper call does |
| Shifter.HitIgnoresBody | src/snake/shifter/wrapper.py:38-43 | on a hit the answer does not depend on what the function would do, and nothing is stored |
| Shifter.MissStoresOnce | src/snake/shifter/wrapper.py:44-50 | on a miss the caller gets the function's own outcome (the return value, or the error re-raised), and exactly one entry is added: the return value, or the error wrapped in exactly `Exception` |
| Shifter.BindingErrorStoresNothing | src/snake/shifter/wrapper.py:36 | a call whose arguments do not bind raises a TypeError and stores nothing |
| Shifter.SecondCallReplays | tests/test_simple_funcs.py:43-60 | a second call with the same arguments stores nothing more and, after a miss, answers what the first call gave, the same error object included, whatever the function would do the second time |
| Shifter.ReturnedExceptionIsRaisedOnReplay | src/snake/shifter/wrapper.py:40-41 | a function that returns an object of exactly type `Exception` returns it on the first call, but the second call raises its first argument |
| Shifter.ReadBeforeCallReturnsEllipsis | src/snake/shifter/wrapper.py:38-43 | once `handler[key]` has inserted `Ellipsis` into a dict handler, a call with that key is a hit: it returns `Ellipsis` without running the function, and stores nothing |
| Shifter.SubclassIsReturnedOnReplay | src/snake/shifter/wrapper.py:40 | the replay tests the exact type, so a stored instance of a subclass of `Exception` is returned, not raised |
| Accessors.ActiveGraph | src/graphty/key_type.py:29-53 | the graph accessors reach the maps of the active handler, and fail with an AttributeError for a handler that is not a graph handler |
| Accessors.ResultOf | src/graphty/key_type.py:39-45 | `result` raises a KeyError for an uncached key, raises the first argument of any cached exception instance (subclasses included), and otherwise returns the cached value |
| Accessors.ExceptionOf | src/graphty/key_type.py:47-53 | `exception` raises a KeyError for an uncached key, gives the first argument of any cached exception instance, and otherwise gives `None` |
| Accessors.WrappedKeyNamesFunction | src/snake/shifter/key_type.py:24-52 | the key of a call of a function wrapped by `shift` exists exactly when the arguments bind; the key type's `__func__` is the wrapped function, the key ends with it in its `func__` field, and the key's repr starts with the `<locals>`-rule name built with the `.` separator |
| Accessors.FunctionOfKey | src/graphty/node.py:66-78 | on a key built from a call, `func` is the function called, and `funcname` follows the `<locals>` rule for the prefix |
| Accessors.AccessorsDecodeRecorded | src/graphty/node.py:45-59 | what a call recorded reads back: a recorded error is raised by `result` and given by `exception`; a returned value that is not an exception is given by `result`, and `exception` is `None` |
| Accessors.AccessorsUnwrapSubclasses | src/graphty/key_type.py:43-44 | a stored instance of an `Exception` subclass is returned by a call's replay, but unwrapped by `result` and `exception` |
| Accessors.TopLevelHasNoParents | tests/test_simple_graph.py:103-106 | a key first looked up with no call in progress gets no parent entry, and its parent set is empty |
| Accessors.NestedLookupLinks | tests/test_simple_graph.py:38-40 | a key looked up during a call lists the caller among its parents, and the caller lists the key among its children |
| Tracking.ReplayRecorded | src/snake/shifter/wrapper.py:40-50 | a plain outcome, recorded (a return value as it is, an error wrapped in `Exception`) and then replayed (an exact `Exception` raises its first argument), gives the same outcome back |
| Tracking.LookupGrows | tests/test_simple_graph.py:36-46 | a lookup keeps a good state good, keeps every cached value and edge, and links the caller to the key |
| Tracking.CompleteAfterMiss | src/snake/shifter/wrapper.py:44-50 | after a miss, storing the outcome pops back to the caller's stack, raises nothing new, caches the recorded outcome and keeps the edges |
| Tracking.ExecSound | src/snake/shifter/wrapper.py:33-50 | a nested call run against a graph handler leaves the stack as it found it (so a finished top-level call leaves it empty), keeps the edges symmetric and every cached value and edge, and caches its key, with the caller edge recorded; a hit answers the cached value and stores nothing; a miss caches the recorded outcome; an error of binding changes nothing |
| Tracking.ExecFromSound | src/snake/shifter/wrapper.py:44-47 | the wrapped calls one body makes keep the stack, the cache and the edges, and fail only with an exception |
| Tracking.ExecAgain | tests/test_simple_graph.py:100-101 | calling again with the same arguments gives the same outcome and changes nothing at all, edges included |
| Tracking.CachedCall | tests/test_simple_graph.py:125-127 | a call whose key is cached runs nothing: it records the caller edge and replays the cached value |
| Tracking.LeafMiss | tests/test_simple_graph.py:36-51 | a call that makes no wrapped calls, missing inside another call, records the caller edge and caches its recorded outcome, with the stack as it was |
| Tracking.Track | src/snake/shifter/wrapper.py:33-50 | one wrapped call answers and updates the graph handler as `Exec` says |
| Tracking.TrackFrom | src/snake/shifter/wrapper.py:45 | the calls made by one body, run in order until the first error, update the graph handler as `ExecFrom` says |
| Scenarios.KeysAreBuiltFromCalls | tests/test_simple_graph.py:197 | the keys of `f(x)` and `g(x, y)` are the bound arguments followed by the function |
| Scenarios.ScenarioEvicted | tests/test_simple_graph.py:197 | bumping `f(1)` after `g(1, 2)` and `g(1, 3)` evicts exactly `f(1)`, `g(1, 2)` and `g(1, 3)` |
| Scenarios.BumpScenario | tests/test_simple_graph.py:203-209 | the bumped handler caches `{f(2): 2, f(3): 3, f(1): 10}`, has no children, and has empty parent sets for `f(2)` and `f(3)` |
| GraphRuns.CallsProper | tests/test_simple_graph.py:182-188 | the calls of `f` and `g` in the bump test are well-behaved calls |
| GraphRuns.KeysDistinct | tests/test_key_type.py:20-33 | the bump test's keys `f(1)`, `f(2)`, `f(3)`, `g(1, 2)` and `g(1, 3)` are pairwise distinct, and no key of `f` equals a key of `g` (the general statement is `CallKeys.KeyDeterminesCall`) |
| GraphRuns.FirstCall | tests/test_simple_graph.py:192 | on a fresh handler `g(1, 2)` returns 3 and leaves the graph `g(1, 2)` → `f(1)`, `f(2)` with all three cached |
| GraphRuns.SecondCall | tests/test_simple_graph.py:193 | `g(1, 3)` then returns 4, hitting `f(1)` and running `f(3)` |
| GraphRuns.BumpedHandlerIs | tests/test_simple_graph.py:197 | the handler `bump` builds in the test, written out |
| GraphRuns.BumpedReadsBack | tests/test_simple_graph.py:205-212 | in the bumped handler `f(2)` and `f(3)` have no parents, no key has children, and the results are 2, 3 and 10 |
| GraphRuns.RecomputeAfterBump | tests/test_simple_graph.py:214 | `g(1, 2)` on the bumped handler recomputes to 12, caches it, and leaves the stack empty |
| GraphTests.KeyOfIsBuiltFromCall | tests/test_simple_graph.py:103 | `node(f, a, b)` for a two-parameter function is `(a, b, f)` |
| GraphTests.AddFirstCall | tests/test_simple_graph.py:100 | the first `g(1, 2)` returns 3, with `g` calling `f` and both cached |
| GraphTests.AddSecondCall | tests/test_simple_graph.py:101 | the second `g(1, 2)` returns 3 from the cache and changes nothing |
| GraphTests.AddGraphReadsBack | tests/test_simple_graph.py:103-122 | every read-back of the first test: entry presence, parent and child sets, results 3, no exceptions |
| GraphTests.TweakedCacheIsUsed | tests/test_simple_graph.py:125-127 | after the cached value of `g(1, 2)` is set to 123, the call returns 123 |
| GraphTests.FailFirstCall | tests/test_simple_graph.py:154-157 | the first failing `g(1, 2)` raises the very error `f` raised, and both calls record it wrapped in `Exception` |
| GraphTests.FailSecondCall | tests/test_simple_graph.py:159-160 | the second `g(1, 2)` raises the same error again from the cache and changes nothing |
| GraphTests.FailGraphReadsBack | tests/test_simple_graph.py:164-176 | both cached values are of exactly type `Exception`; `exception` gives the original error and `result` raises it; `g` has no parents and `f`'s parents are `{g}` |

## Left out

- Parameter kinds: only positional-or-keyword parameters are modelled. Positional-only and keyword-only parameters and `*args`/`**kwargs` are not.
- Identifiers are checked as ASCII letters, digits and `_`; Unicode identifiers are not modelled.
- Format strings: only the `{!r}` fields the key types generate are interpreted. Other fields are an error.
- `repr` of argument values is a parameter. `CallKeys.Quote` approximates the repr of a name in error messages.
- Exceptions: the model does not separate `BaseException` from `Exception`; every exception object is caught by `except Exception`.
- Value equality is structural. Python's `1 == True` and hash-equal but distinct objects are not modelled.
- The graph handler's `defaultdict(set)` reads that insert an empty set are not modelled; an absent entry reads as the empty set (`Accessors.ParentsOf`, `Accessors.ChildrenOf`). The dict handler's insert of `Ellipsis` on a read is modelled (`Handlers.DefaultRead`).
- Accessors.KeyFunction: keys carry no class, so `func`'s `self.__class__.__func__` is read as the key's trailing `func__` field. On a key built by `from_call` the two agree (`Accessors.FunctionOfKey`); on any other tuple the model answers None.
- Handler identity: the combinator handlers are values, so two `NullHandler()` objects are equal. The `is not` test of tests/test_context.py:26 is therefore not modelled; `Contexts.BlocksBalanced` states which handler is active instead.
- The method form of the accessors in src/graphty/node.py:35-59 (`parents(self)`, `children(self)`, `retval(self)`) calls methods the graph handler does not have; only the map-indexing form of src/graphty/key_type.py is modelled.
- The logging, rich, typing, `__main__` and transform handlers are not part of this model.
- Threads and coroutines are not modelled; the handler stack is a single sequential stack.
- Tracebacks, `raise ... from` chaining and object identity of exceptions beyond value equality are not modelled.
- The decorator the graph tests use (`graphty.wrapper`) and src/snake/shifter/context.py are not part of this model. `Tracking` models a wrapper with the control flow of src/snake/shifter/wrapper.py that asks the handler through `handler[key]` and reads `Ellipsis` as a miss, the protocol the handlers follow.
- What a wrapped function computes is code the model cannot see. It enters `Shifter` as the call's `Outcome`, and `Tracking` as the wrapped calls the body makes plus a function from their return values to its outcome.
- A body that catches the error of a wrapped call it made is not modelled; the error propagates out of the body.
- Set and dict iteration order is not modelled. `MemoGraph.ListOf` lists a set in an arbitrary order, and the sweep is proved for every order.
- `Tracking` runs only against a graph handler, not against every handler tree.
- Tracking.ExecSound: proved only for calls whose outcomes are neither `Ellipsis` nor exactly `Exception` (`Tracking.Plain`) and for handlers caching no `Ellipsis`, because a stored `Ellipsis` reads as a miss and a returned `Exception` is replayed as a raise (`Shifter.ReturnedExceptionIsRaisedOnReplay`).
- Shifter.Invoke: runs against dict handlers only. The wrapper asks `key in handler`, which the graphty handler classes do not define.
