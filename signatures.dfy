/**
 Binding call arguments against a function's parameter list, as
 `inspect.Signature.bind` followed by `BoundArguments.apply_defaults` does it
 for positional-or-keyword parameters.

 `Bind` follows the library's order of checks, which decides which TypeError a
 bad call gets; `Bindable` and `Slot` restate the slot-filling rule of section
 6.3.4 ("Calls") of the Python Language Reference, and `Bind` is proved to
 agree with them.
 */
module Signatures {
  import opened PyObjects

  /** Keyword arguments in the order the call passes them. */
  type Keywords = seq<(string, Value)>

  datatype BindError =
    | DuplicateKeyword(name: string)
    | TooManyPositional
    | MultipleValues(name: string)
    | MissingArgument(name: string)
    | UnexpectedKeyword(name: string)

  /** The TypeError a failed binding raises. */
  function AsTypeError(e: BindError): (t: Value)
    ensures t.Exc? && t.cls == "TypeError"
  {
    var message := match e
      case DuplicateKeyword(n) => "got multiple values for keyword argument '" + n + "'"
      case TooManyPositional => "too many positional arguments"
      case MultipleValues(n) => "multiple values for argument '" + n + "'"
      case MissingArgument(n) => "missing a required argument: '" + n + "'"
      case UnexpectedKeyword(n) => "got an unexpected keyword argument '" + n + "'";
    Error("TypeError", message)
  }

  function Names(ps: seq<Param>): (ns: seq<string>)
    ensures |ns| == |ps|
    ensures forall i | 0 <= i < |ps| :: ns[i] == ps[i].name
  {
    if ps == [] then [] else [ps[0].name] + Names(ps[1..])
  }

  function KeywordNames(kw: Keywords): (ns: seq<string>)
    ensures |ns| == |kw|
    ensures forall i | 0 <= i < |kw| :: ns[i] == kw[i].0
  {
    if kw == [] then [] else [kw[0].0] + KeywordNames(kw[1..])
  }

  predicate Distinct(ns: seq<string>) {
    forall i, j | 0 <= i < j < |ns| :: ns[i] != ns[j]
  }

  /** The value passed for keyword `name`, if any (the first one). */
  function FindKeyword(kw: Keywords, name: string): (r: Option<Value>)
    ensures r.Some? <==> name in KeywordNames(kw)
    ensures r.Some? ==> (name, r.value) in kw
  {
    if kw == [] then None
    else if kw[0].0 == name then Some(kw[0].1)
    else FindKeyword(kw[1..], name)
  }

  /** The first name that repeats an earlier one or a name in `seen`. */
  function FirstRepeat(ns: seq<string>, seen: set<string>): (r: Option<string>)
    ensures r.None? <==> Distinct(ns) && forall n | n in ns :: n !in seen
    ensures r.Some? ==> r.value in ns
  {
    if ns == [] then None
    else if ns[0] in seen then Some(ns[0])
    else
      var rest := FirstRepeat(ns[1..], seen + {ns[0]});
      assert ns == [ns[0]] + ns[1..];
      if rest.None? then
        assert forall j | 0 < j < |ns| :: ns[j] != ns[0] by {
          forall j | 0 < j < |ns| ensures ns[j] != ns[0] {
            assert ns[j] == ns[1..][j - 1];
          }
        }
        assert Distinct(ns) by {
          forall i, j | 0 <= i < j < |ns| ensures ns[i] != ns[j] {
            if i > 0 {
              assert ns[i] == ns[1..][i - 1] && ns[j] == ns[1..][j - 1];
            }
          }
        }
        rest
      else
        DistinctTail(ns, seen);
        rest
  }

  lemma {:induction false} DistinctTail(ns: seq<string>, seen: set<string>)
    requires ns != []
    ensures (Distinct(ns) && forall n | n in ns :: n !in seen) ==>
      (Distinct(ns[1..]) && forall n | n in ns[1..] :: n !in seen + {ns[0]})
  {
    if Distinct(ns) && forall n | n in ns :: n !in seen {
      forall n | n in ns[1..] ensures n !in seen + {ns[0]} {
        var j :| 0 <= j < |ns[1..]| && ns[1..][j] == n;
        assert ns[j + 1] == n;
      }
      forall i, j | 0 <= i < j < |ns[1..]| ensures ns[1..][i] != ns[1..][j] {
        assert ns[1..][i] == ns[i + 1] && ns[1..][j] == ns[j + 1];
      }
    }
  }

  /** The positional phase: each positional argument needs a parameter not also named by a keyword. */
  function CheckPositional(params: seq<Param>, npos: nat, kwNames: seq<string>, i: nat): (r: Option<BindError>)
    requires i <= npos && i <= |params|
    decreases npos - i
    ensures r.None? <==> npos <= |params| && forall k | i <= k < npos :: params[k].name !in kwNames
  {
    if i == npos then None
    else if i >= |params| then Some(TooManyPositional)
    else if params[i].name in kwNames then Some(MultipleValues(params[i].name))
    else CheckPositional(params, npos, kwNames, i + 1)
  }

  /** A parameter is satisfied by the keywords when one names it or it has a default. */
  predicate Satisfied(p: Param, kw: Keywords) {
    p.name in KeywordNames(kw) || p.default.Some?
  }

  /** The value a parameter not filled positionally takes: its keyword, else its default. */
  function Slot(p: Param, kw: Keywords): Value
    requires Satisfied(p, kw)
  {
    match FindKeyword(kw, p.name)
    case Some(v) => v
    case None => p.default.value
  }

  /** The keyword phase over parameters `i..`, those not filled positionally, defaults applied. */
  function BindRest(params: seq<Param>, i: nat, kw: Keywords): (r: Result<seq<Value>, BindError>)
    requires i <= |params|
    decreases |params| - i
    ensures r.Success? <==> forall j | i <= j < |params| :: Satisfied(params[j], kw)
    ensures r.Success? ==> |r.value| == |params| - i && forall j | i <= j < |params| :: r.value[j - i] == Slot(params[j], kw)
    ensures r.Failure? ==> r.error.MissingArgument?
  {
    if i == |params| then Success([])
    else if !Satisfied(params[i], kw) then Failure(MissingArgument(params[i].name))
    else
      match BindRest(params, i + 1, kw)
      case Failure(e) => Failure(e)
      case Success(vs) =>
        var r := [Slot(params[i], kw)] + vs;
        assert forall k | 0 < k < |r| :: r[k] == vs[k - 1];
        Success(r)
  }

  /** The first keyword that names no parameter. */
  function FirstUnknown(kw: Keywords, names: seq<string>): (r: Option<string>)
    ensures r.None? <==> forall n | n in KeywordNames(kw) :: n in names
  {
    if kw == [] then None
    else if kw[0].0 !in names then Some(kw[0].0)
    else
      assert KeywordNames(kw) == [kw[0].0] + KeywordNames(kw[1..]);
      FirstUnknown(kw[1..], names)
  }

  /**
   Bind `pos` and `kw` to `params` and apply the defaults: the argument values
   in declared order, or the error the library reports first.
   */
  function Bind(params: seq<Param>, pos: seq<Value>, kw: Keywords): (r: Result<seq<Value>, BindError>)
  {
    var kwNames := KeywordNames(kw);
    match FirstRepeat(kwNames, {})
    case Some(n) => Failure(DuplicateKeyword(n))
    case None =>
      match CheckPositional(params, |pos|, kwNames, 0)
      case Some(e) => Failure(e)
      case None =>
        match BindRest(params, |pos|, kw)
        case Failure(e) => Failure(e)
        case Success(rest) =>
          match FirstUnknown(kw, Names(params))
          case Some(n) => Failure(UnexpectedKeyword(n))
          case None => Success(pos + rest)
  }

  /** When the slot-filling rule of the language reference accepts a call. */
  predicate Bindable(params: seq<Param>, pos: seq<Value>, kw: Keywords) {
    && Distinct(KeywordNames(kw))
    && |pos| <= |params|
    && (forall i | 0 <= i < |pos| :: params[i].name !in KeywordNames(kw))
    && (forall j | |pos| <= j < |params| :: Satisfied(params[j], kw))
    && (forall n | n in KeywordNames(kw) :: n in Names(params))
  }

  /**
   The binding succeeds exactly when the arguments fill every slot once with
   no argument left over, and then slot `j` holds the `j`-th positional
   argument, else the keyword argument of its name, else its default.
   */
  lemma {:induction false} BindMeetsSlotRule(params: seq<Param>, pos: seq<Value>, kw: Keywords)
    ensures Bind(params, pos, kw).Success? <==> Bindable(params, pos, kw)
    ensures Bind(params, pos, kw).Success? ==>
      var vs := Bind(params, pos, kw).value;
      && |vs| == |params|
      && (forall j | 0 <= j < |pos| :: vs[j] == pos[j])
      && (forall j | |pos| <= j < |params| :: Satisfied(params[j], kw) && vs[j] == Slot(params[j], kw))
  {
    var kwNames := KeywordNames(kw);
    var dup := FirstRepeat(kwNames, {});
    if dup.None? {
      var pc := CheckPositional(params, |pos|, kwNames, 0);
      if pc.None? {
        var br := BindRest(params, |pos|, kw);
        if br.Success? {
          var vs := pos + br.value;
          assert forall j | |pos| <= j < |params| :: vs[j] == br.value[j - |pos|];
        }
      }
    }
  }

  /** Two keyword lists that agree on what every parameter from `i` on receives bind those parameters alike. */
  lemma {:induction false} BindRestAgrees(params: seq<Param>, i: nat, kw: Keywords, kw': Keywords)
    requires i <= |params|
    requires forall j | i <= j < |params| :: Satisfied(params[j], kw) == Satisfied(params[j], kw')
    requires forall j | i <= j < |params| && Satisfied(params[j], kw) :: Slot(params[j], kw) == Slot(params[j], kw')
    ensures BindRest(params, i, kw') == BindRest(params, i, kw)
    decreases |params| - i
  {
    if i < |params| {
      BindRestAgrees(params, i + 1, kw, kw');
    }
  }

  lemma {:induction false} FindAppend(kw: Keywords, name: string, v: Value, q: string)
    requires name !in KeywordNames(kw)
    ensures FindKeyword(kw + [(name, v)], q) == if q == name then Some(v) else FindKeyword(kw, q)
  {
    if kw != [] {
      assert (kw + [(name, v)])[1..] == kw[1..] + [(name, v)];
      assert KeywordNames(kw) == [kw[0].0] + KeywordNames(kw[1..]);
      FindAppend(kw[1..], name, v, q);
    }
  }

  lemma {:induction false} RepeatAppend(ns: seq<string>, name: string, seen: set<string>)
    requires name !in ns && name !in seen
    ensures FirstRepeat(ns + [name], seen) == FirstRepeat(ns, seen)
  {
    if ns != [] {
      assert (ns + [name])[0] == ns[0];
      assert (ns + [name])[1..] == ns[1..] + [name];
      if ns[0] !in seen {
        RepeatAppend(ns[1..], name, seen + {ns[0]});
      }
    }
  }

  lemma {:induction false} CheckPositionalAppend(params: seq<Param>, npos: nat, names: seq<string>, name: string, i: nat)
    requires i <= npos && i <= |params|
    requires forall k | i <= k < npos && k < |params| :: params[k].name != name
    ensures CheckPositional(params, npos, names + [name], i) == CheckPositional(params, npos, names, i)
    decreases npos - i
  {
    if i < npos && i < |params| {
      if params[i].name !in names {
        CheckPositionalAppend(params, npos, names, name, i + 1);
      }
    }
  }

  lemma {:induction false} FirstUnknownAppend(kw: Keywords, name: string, v: Value, names: seq<string>)
    requires name in names
    ensures FirstUnknown(kw + [(name, v)], names) == FirstUnknown(kw, names)
  {
    if kw != [] {
      assert (kw + [(name, v)])[1..] == kw[1..] + [(name, v)];
      FirstUnknownAppend(kw[1..], name, v, names);
    }
  }

  /** Two keyword lists that pass every phase of the binding alike bind alike. */
  lemma {:induction false} BindSameWhen(params: seq<Param>, pos: seq<Value>, kw: Keywords, kw': Keywords)
    requires FirstRepeat(KeywordNames(kw), {}) == FirstRepeat(KeywordNames(kw'), {})
    requires CheckPositional(params, |pos|, KeywordNames(kw), 0) == CheckPositional(params, |pos|, KeywordNames(kw'), 0)
    requires |pos| <= |params| ==> BindRest(params, |pos|, kw) == BindRest(params, |pos|, kw')
    requires FirstUnknown(kw, Names(params)) == FirstUnknown(kw', Names(params))
    ensures Bind(params, pos, kw) == Bind(params, pos, kw')
  {
  }

  /**
   Passing a parameter its default explicitly binds exactly as leaving it
   out, error included, so `f(1)` and `f(1, b=default)` build the same key.
   */
  lemma {:induction false} ExplicitDefaultBindsSame(params: seq<Param>, pos: seq<Value>, kw: Keywords, j: nat)
    requires |pos| <= j < |params|
    requires params[j].default.Some?
    requires params[j].name !in KeywordNames(kw)
    requires Distinct(Names(params))
    ensures Bind(params, pos, kw + [(params[j].name, params[j].default.value)]) == Bind(params, pos, kw)
  {
    var name := params[j].name;
    var d := params[j].default.value;
    var kw' := kw + [(name, d)];
    assert KeywordNames(kw') == KeywordNames(kw) + [name];
    RepeatAppend(KeywordNames(kw), name, {});
    assert forall k | 0 <= k < |pos| && k < |params| :: params[k].name != name by {
      forall k | 0 <= k < |pos| && k < |params| ensures params[k].name != name {
        assert Names(params)[k] != Names(params)[j];
      }
    }
    CheckPositionalAppend(params, |pos|, KeywordNames(kw), name, 0);
    DefaultRestAgrees(params, pos, kw, j);
    assert Names(params)[j] == name;
    FirstUnknownAppend(kw, name, d, Names(params));
    BindSameWhen(params, pos, kw', kw);
  }

  lemma {:induction false} DefaultRestAgrees(params: seq<Param>, pos: seq<Value>, kw: Keywords, j: nat)
    requires |pos| <= j < |params|
    requires params[j].default.Some?
    requires params[j].name !in KeywordNames(kw)
    requires Distinct(Names(params))
    ensures BindRest(params, |pos|, kw + [(params[j].name, params[j].default.value)]) == BindRest(params, |pos|, kw)
  {
    var name := params[j].name;
    var d := params[j].default.value;
    var kw' := kw + [(name, d)];
    forall k | |pos| <= k < |params|
      ensures Satisfied(params[k], kw) == Satisfied(params[k], kw')
      ensures Satisfied(params[k], kw) ==> Slot(params[k], kw) == Slot(params[k], kw')
    {
      assert Names(params)[k] == params[k].name && Names(params)[j] == name;
      SlotAppend(kw, name, d, params[k]);
    }
    BindRestAgrees(params, |pos|, kw, kw');
  }

  /** A keyword appended for an absent name changes nothing for other parameters, nor for one whose default it repeats. */
  lemma {:induction false} SlotAppend(kw: Keywords, name: string, d: Value, p: Param)
    requires name !in KeywordNames(kw)
    requires p.name == name ==> p.default == Some(d)
    ensures Satisfied(p, kw) == Satisfied(p, kw + [(name, d)])
    ensures Satisfied(p, kw) ==> Slot(p, kw) == Slot(p, kw + [(name, d)])
  {
    FindAppend(kw, name, d, p.name);
  }

  /**
   A parameter may be given positionally or by keyword with the same result,
   error included: `f(1, 2)` and `f(1, b=2)` bind the same values.
   */
  lemma {:induction false} PositionalOrKeyword(params: seq<Param>, pos: seq<Value>, v: Value)
    requires |pos| < |params|
    requires Distinct(Names(params))
    ensures Bind(params, pos + [v], []) == Bind(params, pos, [(params[|pos|].name, v)])
  {
    PositionalBinds(params, pos, v);
    KeywordBinds(params, pos, v);
  }

  /** Binding one more positional argument: the positionals, then what the keyword phase gives the rest. */
  lemma {:induction false} PositionalBinds(params: seq<Param>, pos: seq<Value>, v: Value)
    requires |pos| < |params|
    ensures var rest := BindRest(params, |pos| + 1, []);
      Bind(params, pos + [v], []) == if rest.Success? then Success(pos + ([v] + rest.value)) else Failure(rest.error)
  {
    var none: Keywords := [];
    assert CheckPositional(params, |pos| + 1, KeywordNames(none), 0).None?;
    BindWhenPhasesPass(params, pos + [v], none);
    var b1 := BindRest(params, |pos| + 1, none);
    if b1.Success? {
      assert (pos + [v]) + b1.value == pos + ([v] + b1.value);
    }
  }

  /** Naming slot `n` by keyword instead: the slot takes the keyword's value, and the rest bind as with no keyword. */
  lemma {:induction false} KeywordBinds(params: seq<Param>, pos: seq<Value>, v: Value)
    requires |pos| < |params|
    requires Distinct(Names(params))
    ensures var rest := BindRest(params, |pos| + 1, []);
      Bind(params, pos, [(params[|pos|].name, v)]) == if rest.Success? then Success(pos + ([v] + rest.value)) else Failure(rest.error)
  {
    var n := |pos|;
    var name := params[n].name;
    var kw: Keywords := [(name, v)];
    EarlierNamesDiffer(params, n);
    assert KeywordNames(kw) == [name];
    assert CheckPositional(params, n, KeywordNames(kw), 0).None?;
    assert FirstUnknown(kw, Names(params)).None? by {
      assert Names(params)[n] == name;
    }
    BindWhenPhasesPass(params, pos, kw);
    KeywordRestAgrees(params, n, v);
    assert Satisfied(params[n], kw) && Slot(params[n], kw) == v by {
      assert FindKeyword(kw, name) == Some(v);
    }
    BindRestStep(params, n, kw);
  }

  /** With distinct parameter names, no parameter before slot `n` has the name of slot `n`. */
  lemma {:induction false} EarlierNamesDiffer(params: seq<Param>, n: nat)
    requires n < |params|
    requires Distinct(Names(params))
    ensures forall k | 0 <= k < n :: params[k].name != params[n].name
  {
    forall k | 0 <= k < n ensures params[k].name != params[n].name {
      assert Names(params)[k] != Names(params)[n];
    }
  }

  /** One step of the keyword phase. */
  lemma {:induction false} BindRestStep(params: seq<Param>, i: nat, kw: Keywords)
    requires i < |params|
    requires Satisfied(params[i], kw)
    ensures var tail := BindRest(params, i + 1, kw);
      BindRest(params, i, kw) == if tail.Success? then Success([Slot(params[i], kw)] + tail.value) else Failure(tail.error)
  {
  }

  /** What `Bind` returns once the keyword, positional and unknown-keyword checks pass. */
  lemma {:induction false} BindWhenPhasesPass(params: seq<Param>, pos: seq<Value>, kw: Keywords)
    requires FirstRepeat(KeywordNames(kw), {}).None?
    requires CheckPositional(params, |pos|, KeywordNames(kw), 0).None?
    requires FirstUnknown(kw, Names(params)).None?
    ensures |pos| <= |params|
    ensures var rest := BindRest(params, |pos|, kw);
      Bind(params, pos, kw) == if rest.Success? then Success(pos + rest.value) else Failure(rest.error)
  {
  }

  /** Naming one parameter by keyword leaves the parameters after it as they were. */
  lemma {:induction false} KeywordRestAgrees(params: seq<Param>, n: nat, v: Value)
    requires n < |params|
    requires Distinct(Names(params))
    ensures BindRest(params, n + 1, [(params[n].name, v)]) == BindRest(params, n + 1, [])
  {
    var none: Keywords := [];
    var kw := none + [(params[n].name, v)];
    forall k | n + 1 <= k < |params|
      ensures Satisfied(params[k], none) == Satisfied(params[k], kw)
      ensures Satisfied(params[k], none) ==> Slot(params[k], none) == Slot(params[k], kw)
    {
      assert Names(params)[k] != Names(params)[n];
      SlotAppend(none, params[n].name, v, params[k]);
    }
    BindRestAgrees(params, n + 1, none, kw);
    assert kw == [(params[n].name, v)];
  }
}
