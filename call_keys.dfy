/**
 Call keys: the tuple that names one call of one function.

 A key type is built once per wrapped function (`make_node_type` in
 src/graphty/node.py, `make_key_type` in src/graphty/key_type.py and in
 src/snake/shifter/key_type.py).  All three lay the key out the same way: the
 bound argument values in declared order followed by the function itself in a
 trailing `func__` field.  They differ only in the separator of the repr
 prefix, ':' for nodes and '.' for call keys.

 Keys compare as plain tuples, so they are modelled as `seq<Value>`.
 */
module CallKeys {
  import opened PyObjects
  import opened Signatures

  type Key = seq<Value>

  /** What each construction of a key type fixes: the function, the namedtuple layout and the repr format. */
  datatype KeyType = KeyType(func: Function, fields: seq<string>, defaults: seq<Value>, reprFormat: string)

  /* ---------- Names ---------- */

  predicate IsAsciiLetter(c: char) {
    ('a' <= c <= 'z') || ('A' <= c <= 'Z')
  }

  predicate IsAsciiDigit(c: char) {
    '0' <= c <= '9'
  }

  /** `str.isidentifier` for ASCII names. */
  predicate IsIdentifier(s: string) {
    && |s| > 0
    && (IsAsciiLetter(s[0]) || s[0] == '_')
    && forall i | 0 < i < |s| :: IsAsciiLetter(s[i]) || IsAsciiDigit(s[i]) || s[i] == '_'
  }

  /** `keyword.iskeyword`: the reserved words of Python 3. */
  predicate IsKeyword(s: string) {
    s in {"False", "None", "True", "and", "as", "assert", "async", "await", "break", "class",
          "continue", "def", "del", "elif", "else", "except", "finally", "for", "from", "global",
          "if", "import", "in", "is", "lambda", "nonlocal", "not", "or", "pass", "raise",
          "return", "try", "while", "with", "yield"}
  }

  function Quote(s: string): string {
    "'" + s + "'"
  }

  function ValueError(message: string): (e: Value)
    ensures e.Exc? && e.cls == "ValueError"
  {
    Error("ValueError", message)
  }

  /** The first type or field name that is not a usable identifier, as namedtuple's first loop reports it. */
  function FirstBadName(ns: seq<string>): (r: Option<Value>)
    ensures r.None? <==> forall i | 0 <= i < |ns| :: IsIdentifier(ns[i]) && !IsKeyword(ns[i])
    ensures r.Some? ==> r.value.Exc? && r.value.cls == "ValueError"
  {
    if ns == [] then None
    else if !IsIdentifier(ns[0]) then Some(ValueError("Type names and field names must be valid identifiers: " + Quote(ns[0])))
    else if IsKeyword(ns[0]) then Some(ValueError("Type names and field names cannot be a keyword: " + Quote(ns[0])))
    else
      var r := FirstBadName(ns[1..]);
      assert forall i | 0 < i < |ns| :: ns[i] == ns[1..][i - 1];
      r
  }

  /** `s.startswith("_")` */
  predicate StartsWithUnderscore(s: string) {
    |s| > 0 && s[0] == '_'
  }

  /** namedtuple's second loop: no field may start with an underscore or repeat an earlier one. */
  function FirstBadField(ns: seq<string>, seen: set<string>): (r: Option<Value>)
    ensures r.None? <==> (forall i | 0 <= i < |ns| :: !StartsWithUnderscore(ns[i])) && FirstRepeat(ns, seen).None?
    ensures r.Some? ==> r.value.Exc? && r.value.cls == "ValueError"
  {
    if ns == [] then None
    else if StartsWithUnderscore(ns[0]) then Some(ValueError("Field names cannot start with an underscore: " + Quote(ns[0])))
    else if ns[0] in seen then Some(ValueError("Encountered duplicate field name: " + Quote(ns[0])))
    else
      var r := FirstBadField(ns[1..], seen + {ns[0]});
      assert forall i | 0 < i < |ns| :: ns[i] == ns[1..][i - 1];
      r
  }

  /** The checks `collections.namedtuple(typename, fields)` makes before building the class. */
  function NamedTupleCheck(typename: string, fields: seq<string>): (r: Option<Value>)
  {
    match FirstBadName([typename] + fields)
    case Some(e) => Some(e)
    case None => FirstBadField(fields, {})
  }

  /** A field layout namedtuple accepts. */
  predicate ValidLayout(typename: string, fields: seq<string>) {
    && IsIdentifier(typename) && !IsKeyword(typename)
    && (forall i | 0 <= i < |fields| :: IsIdentifier(fields[i]) && !IsKeyword(fields[i]) && fields[i][0] != '_')
    && Distinct(fields)
  }

  /** namedtuple accepts exactly the layouts of identifiers that are not keywords, do not start with `_` and do not repeat. */
  lemma NamedTupleCheckIsValidLayout(typename: string, fields: seq<string>)
    ensures NamedTupleCheck(typename, fields).None? <==> ValidLayout(typename, fields)
  {
    var all := [typename] + fields;
    assert all[0] == typename;
    assert forall i | 0 <= i < |fields| :: all[i + 1] == fields[i];
  }

  /* ---------- The repr format ---------- */

  /** The repr prefix: the bare name for a local function, else module, separator and qualified name. */
  function Prefix(f: Function, sep: string): (p: string)
    ensures Contains(f.qualname, "<locals>") ==> p == f.name
    ensures !Contains(f.qualname, "<locals>") ==> p == f.moduleName + sep + f.qualname
  {
    if Contains(f.qualname, "<locals>") then f.name else f.moduleName + sep + f.qualname
  }

  /** `needle in s` for strings. */
  predicate Contains(s: string, needle: string) {
    exists i | 0 <= i <= |s| :: needle <= s[i..]
  }

  /** `", ".join(name + "={!r}" for name in names)`. */
  function FieldsFormat(names: seq<string>): string
  {
    if names == [] then ""
    else if |names| == 1 then names[0] + "={!r}"
    else names[0] + "={!r}, " + FieldsFormat(names[1..])
  }

  function ReprFormat(f: Function, sep: string): string {
    Prefix(f, sep) + "(" + FieldsFormat(Names(f.params)) + ")"
  }

  /** The namedtuple default of each parameter: its default, or `inspect.Parameter.empty`. */
  function Defaults(ps: seq<Param>): (ds: seq<Value>)
    ensures |ds| == |ps|
    ensures forall i | 0 <= i < |ps| :: ds[i] == if ps[i].default.Some? then ps[i].default.value else Empty
  {
    if ps == [] then [] else [if ps[0].default.Some? then ps[0].default.value else Empty] + Defaults(ps[1..])
  }

  /**
   Build the key type of `f`; `sep` is the separator of the repr prefix.  The
   namedtuple construction raises a ValueError when the function's name or a
   parameter name cannot be a namedtuple type or field name.
   */
  function MakeKeyType(f: Function, sep: string): (r: Result<KeyType, Value>)
    ensures r.Success? <==> ValidLayout(f.name, Names(f.params) + ["func__"])
    ensures r.Failure? ==> r.error.Exc? && r.error.cls == "ValueError"
    ensures r.Success? ==>
      && r.value.func == f
      && r.value.fields == Names(f.params) + ["func__"]
      && |r.value.defaults| == |r.value.fields|
      && r.value.defaults[|f.params|] == Func(f)
      && (forall i | 0 <= i < |f.params| :: r.value.defaults[i] == if f.params[i].default.Some? then f.params[i].default.value else Empty)
      && r.value.reprFormat == ReprFormat(f, sep)
  {
    var fields := Names(f.params) + ["func__"];
    NamedTupleCheckIsValidLayout(f.name, fields);
    match NamedTupleCheck(f.name, fields)
    case Some(e) =>
      assert e.Exc? && e.cls == "ValueError";
      Failure(e)
    case None => Success(KeyType(f, fields, Defaults(f.params) + [Func(f)], ReprFormat(f, sep)))
  }

  /** The key type's function has a signature namedtuple accepts, so `MakeKeyType` built it. */
  predicate WellFormed(kt: KeyType) {
    ValidLayout(kt.func.name, Names(kt.func.params) + ["func__"])
  }

  /* ---------- Keys ---------- */

  /**
   `from_call`: bind the call's arguments to the signature, apply defaults and
   append the function; a binding error is the TypeError the call raises.
   */
  function FromCall(kt: KeyType, pos: seq<Value>, kw: Keywords): (r: Result<Key, Value>)
  {
    match Bind(kt.func.params, pos, kw)
    case Failure(e) => Failure(AsTypeError(e))
    case Success(vs) => Success(vs + [Func(kt.func)])
  }

  /**
   `from_call` succeeds exactly when the arguments bind, and then the key
   holds one value per parameter, as the slot-filling rule assigns them,
   followed by the function.
   */
  lemma FromCallLayout(kt: KeyType, pos: seq<Value>, kw: Keywords)
    ensures FromCall(kt, pos, kw).Success? <==> Bindable(kt.func.params, pos, kw)
    ensures FromCall(kt, pos, kw).Failure? ==> FromCall(kt, pos, kw).error.Exc? && FromCall(kt, pos, kw).error.cls == "TypeError"
    ensures FromCall(kt, pos, kw).Success? ==>
      var key := FromCall(kt, pos, kw).value;
      var ps := kt.func.params;
      && |key| == |ps| + 1
      && key[|ps|] == Func(kt.func)
      && (forall j | 0 <= j < |pos| :: key[j] == pos[j])
      && (forall j | |pos| <= j < |ps| :: Satisfied(ps[j], kw) && key[j] == Slot(ps[j], kw))
  {
    BindMeetsSlotRule(kt.func.params, pos, kw);
  }

  /** Equal keys name the same function and the same argument values; keys of different functions never collide. */
  lemma {:induction false} KeyDeterminesCall(kt1: KeyType, pos1: seq<Value>, kw1: Keywords, kt2: KeyType, pos2: seq<Value>, kw2: Keywords)
    requires FromCall(kt1, pos1, kw1).Success? && FromCall(kt2, pos2, kw2).Success?
    ensures FromCall(kt1, pos1, kw1).value == FromCall(kt2, pos2, kw2).value <==>
      kt1.func == kt2.func && Bind(kt1.func.params, pos1, kw1).value == Bind(kt2.func.params, pos2, kw2).value
  {
    var k1 := FromCall(kt1, pos1, kw1).value;
    var k2 := FromCall(kt2, pos2, kw2).value;
    var v1 := Bind(kt1.func.params, pos1, kw1).value;
    var v2 := Bind(kt2.func.params, pos2, kw2).value;
    assert k1 == v1 + [Func(kt1.func)] && k2 == v2 + [Func(kt2.func)];
    if k1 == k2 {
      assert k1[|k1| - 1] == Func(kt1.func) && k2[|k2| - 1] == Func(kt2.func);
      assert v1 == k1[..|k1| - 1] && v2 == k2[..|k2| - 1];
    }
  }

  /** `node(f, ...)` and `f.__key__.from_call(...)` with a default passed explicitly or left out give equal keys. */
  lemma {:induction false} ExplicitDefaultSameKey(kt: KeyType, pos: seq<Value>, kw: Keywords, j: nat)
    requires WellFormed(kt)
    requires |pos| <= j < |kt.func.params|
    requires kt.func.params[j].default.Some?
    requires kt.func.params[j].name !in KeywordNames(kw)
    ensures FromCall(kt, pos, kw + [(kt.func.params[j].name, kt.func.params[j].default.value)]) == FromCall(kt, pos, kw)
  {
    ParamNamesDistinct(kt);
    ExplicitDefaultBindsSame(kt.func.params, pos, kw, j);
  }

  /** Giving a parameter positionally or by keyword gives the same key. */
  lemma {:induction false} PositionalOrKeywordSameKey(kt: KeyType, pos: seq<Value>, v: Value)
    requires WellFormed(kt)
    requires |pos| < |kt.func.params|
    ensures FromCall(kt, pos + [v], []) == FromCall(kt, pos, [(kt.func.params[|pos|].name, v)])
  {
    ParamNamesDistinct(kt);
    PositionalOrKeyword(kt.func.params, pos, v);
  }

  lemma ParamNamesDistinct(kt: KeyType)
    requires WellFormed(kt)
    ensures Distinct(Names(kt.func.params))
  {
    var fields := Names(kt.func.params) + ["func__"];
    assert ValidLayout(kt.func.name, fields);
    forall i, j | 0 <= i < j < |kt.func.params| ensures Names(kt.func.params)[i] != Names(kt.func.params)[j] {
      assert fields[i] != fields[j];
    }
  }

  /* ---------- str.format with `{!r}` fields ---------- */

  /**
   `fmt.format(*args)` for formats whose replacement fields are all `{!r}`:
   `{{` and `}}` are literal braces, each `{!r}` renders the next argument by
   `repr`, and a field beyond the arguments is an IndexError.  `next` counts
   the fields consumed so far.
   */
  function Format(fmt: string, args: seq<Value>, next: nat, repr: Value -> string): (r: Result<string, Value>)
    decreases |fmt|
  {
    if fmt == [] then Success("")
    else if fmt[0] == '{' then
      if |fmt| >= 2 && fmt[1] == '{' then Prepend("{", Format(fmt[2..], args, next, repr))
      else if |fmt| >= 4 && fmt[1..4] == "!r}" then
        if next < |args| then Prepend(repr(args[next]), Format(fmt[4..], args, next + 1, repr))
        else Failure(IndexError("Replacement index " + NatToString(next) + " out of range for positional args tuple"))
      else Failure(ValueError("unsupported replacement field"))
    else if fmt[0] == '}' then
      if |fmt| >= 2 && fmt[1] == '}' then Prepend("}", Format(fmt[2..], args, next, repr))
      else Failure(ValueError("Single '}' encountered in format string"))
    else Prepend([fmt[0]], Format(fmt[1..], args, next, repr))
  }

  function Prepend(s: string, r: Result<string, Value>): (p: Result<string, Value>)
    ensures p.Success? <==> r.Success?
    ensures p.Success? ==> p.value == s + r.value
    ensures p.Failure? ==> p == r
  {
    if r.Success? then Success(s + r.value) else r
  }

  function NatToString(n: nat): string {
    var d := ['0' + (n % 10) as char];
    if n < 10 then d else NatToString(n / 10) + d
  }

  predicate NoBraces(s: string) {
    forall i | 0 <= i < |s| :: s[i] != '{' && s[i] != '}'
  }

  /** Text without braces formats as itself. */
  lemma {:induction false} FormatLiteral(lit: string, rest: string, args: seq<Value>, next: nat, repr: Value -> string)
    requires NoBraces(lit)
    ensures Format(lit + rest, args, next, repr) == Prepend(lit, Format(rest, args, next, repr))
    decreases |lit|
  {
    if lit != [] {
      var s := lit + rest;
      assert s[0] == lit[0];
      assert s[1..] == lit[1..] + rest;
      FormatLiteral(lit[1..], rest, args, next, repr);
      var r := Format(rest, args, next, repr);
      if r.Success? {
        assert [lit[0]] + (lit[1..] + r.value) == lit + r.value;
      }
    } else {
      assert lit + rest == rest;
      var r := Format(rest, args, next, repr);
      if r.Success? {
        assert lit + r.value == r.value;
      }
    }
  }

  /** One `{!r}` field renders the next argument. */
  lemma FormatField(rest: string, args: seq<Value>, next: nat, repr: Value -> string)
    requires next < |args|
    ensures Format("{!r}" + rest, args, next, repr) == Prepend(repr(args[next]), Format(rest, args, next + 1, repr))
  {
    var s := "{!r}" + rest;
    assert s[0] == '{' && s[1] == '!' && s[1..4] == "!r}";
    assert s[4..] == rest;
  }

  /** `name=repr(value)` for each parameter, joined by ", ". */
  function Rendered(names: seq<string>, args: seq<Value>, next: nat, repr: Value -> string): string
    requires next + |names| <= |args|
    decreases |names|
  {
    if names == [] then ""
    else if |names| == 1 then names[0] + "=" + repr(args[next])
    else names[0] + "=" + repr(args[next]) + ", " + Rendered(names[1..], args, next + 1, repr)
  }

  lemma {:induction false} FormatFields(names: seq<string>, rest: string, args: seq<Value>, next: nat, repr: Value -> string)
    requires next + |names| <= |args|
    requires forall i | 0 <= i < |names| :: NoBraces(names[i])
    ensures Format(FieldsFormat(names) + rest, args, next, repr) == Prepend(Rendered(names, args, next, repr), Format(rest, args, next + |names|, repr))
    decreases |names|
  {
    if names == [] {
      assert FieldsFormat(names) + rest == rest;
      var r := Format(rest, args, next, repr);
      if r.Success? {
        assert "" + r.value == r.value;
      }
    } else if |names| == 1 {
      assert FieldsFormat(names) + rest == names[0] + "={!r}" + rest;
      FormatEntry(names[0], rest, args, next, repr);
    } else {
      FormatFields(names[1..], rest, args, next + 1, repr);
      FormatFieldsCons(names, rest, args, next, repr);
    }
  }

  /** The first entry of several, followed by `, ` and the formatted rest. */
  lemma {:induction false} FormatFieldsCons(names: seq<string>, rest: string, args: seq<Value>, next: nat, repr: Value -> string)
    requires |names| > 1 && next + |names| <= |args|
    requires NoBraces(names[0])
    requires Format(FieldsFormat(names[1..]) + rest, args, next + 1, repr)
      == Prepend(Rendered(names[1..], args, next + 1, repr), Format(rest, args, next + |names|, repr))
    ensures Format(FieldsFormat(names) + rest, args, next, repr) == Prepend(Rendered(names, args, next, repr), Format(rest, args, next + |names|, repr))
  {
    var more := FieldsFormat(names[1..]) + rest;
    assert FieldsFormat(names) + rest == names[0] + "={!r}" + (", " + more);
    FormatEntry(names[0], ", " + more, args, next, repr);
    FormatLiteral(", ", more, args, next + 1, repr);
    var r := Format(rest, args, next + |names|, repr);
    if r.Success? {
      var entry := names[0] + "=" + repr(args[next]);
      var others := Rendered(names[1..], args, next + 1, repr);
      assert entry + (", " + (others + r.value)) == entry + ", " + others + r.value;
    }
  }

  /** One `name={!r}` entry renders as `name=` followed by the next argument's repr. */
  lemma {:induction false} FormatEntry(name: string, tail: string, args: seq<Value>, next: nat, repr: Value -> string)
    requires next < |args|
    requires NoBraces(name)
    ensures Format(name + "={!r}" + tail, args, next, repr) == Prepend(name + "=" + repr(args[next]), Format(tail, args, next + 1, repr))
  {
    assert name + "={!r}" + tail == name + ("=" + ("{!r}" + tail));
    FormatLiteral(name, "=" + ("{!r}" + tail), args, next, repr);
    FormatLiteral("=", "{!r}" + tail, args, next, repr);
    FormatField(tail, args, next, repr);
    var r := Format(tail, args, next + 1, repr);
    if r.Success? {
      assert name + ("=" + (repr(args[next]) + r.value)) == name + "=" + repr(args[next]) + r.value;
    }
  }

  /**
   `repr(key)`: the format applied to every field but the trailing function.
   */
  function Render(kt: KeyType, key: Key, repr: Value -> string): (r: Result<string, Value>)
    requires |key| > 0
  {
    Format(kt.reprFormat, key[..|key| - 1], 0, repr)
  }

  /**
   The repr of a key built by `from_call` reads `prefix(name=repr(value), ...)`,
   naming every parameter with its bound value and leaving out the function.
   */
  lemma {:induction false} RenderNamesEveryArgument(f: Function, sep: string, pos: seq<Value>, kw: Keywords, repr: Value -> string)
    requires MakeKeyType(f, sep).Success?
    requires FromCall(MakeKeyType(f, sep).value, pos, kw).Success?
    requires NoBraces(Prefix(f, sep))
    ensures var kt := MakeKeyType(f, sep).value;
      var key := FromCall(kt, pos, kw).value;
      Render(kt, key, repr) == Success(Prefix(f, sep) + "(" + Rendered(Names(f.params), key, 0, repr) + ")")
  {
    var kt := MakeKeyType(f, sep).value;
    var key := FromCall(kt, pos, kw).value;
    FromCallLayout(kt, pos, kw);
    var args := key[..|key| - 1];
    var names := Names(f.params);
    forall i | 0 <= i < |names| ensures NoBraces(names[i]) {
      assert (names + ["func__"])[i] == names[i];
      assert IsIdentifier(names[i]);
    }
    FormatReprFormat(f, sep, args, repr);
    RenderedPrefix(names, args, key, 0, repr);
  }

  lemma {:induction false} FormatReprFormat(f: Function, sep: string, args: seq<Value>, repr: Value -> string)
    requires |f.params| <= |args|
    requires NoBraces(Prefix(f, sep))
    requires forall i | 0 <= i < |f.params| :: NoBraces(Names(f.params)[i])
    ensures Format(ReprFormat(f, sep), args, 0, repr) == Success(Prefix(f, sep) + "(" + Rendered(Names(f.params), args, 0, repr) + ")")
  {
    var names := Names(f.params);
    var prefix := Prefix(f, sep);
    assert ReprFormat(f, sep) == prefix + ("(" + (FieldsFormat(names) + ")"));
    FormatLiteral(prefix, "(" + (FieldsFormat(names) + ")"), args, 0, repr);
    FormatLiteral("(", FieldsFormat(names) + ")", args, 0, repr);
    FormatFields(names, ")", args, 0, repr);
    FormatLiteral(")", "", args, |names|, repr);
    assert Format("", args, |names|, repr) == Success("");
    assert ")" + "" == ")";
    var body := Rendered(names, args, 0, repr);
    assert prefix + ("(" + (body + ")")) == prefix + "(" + body + ")";
  }

  lemma {:induction false} RenderedPrefix(names: seq<string>, args: seq<Value>, key: seq<Value>, next: nat, repr: Value -> string)
    requires |args| <= |key| && args == key[..|args|] && next + |names| <= |args|
    ensures Rendered(names, args, next, repr) == Rendered(names, key, next, repr)
    decreases |names|
  {
    if |names| > 1 {
      RenderedPrefix(names[1..], args, key, next + 1, repr);
    }
  }

  /* ---------- Accessors ---------- */

  /** `kwargs`: each field but the trailing function, mapped to the repr of its value. */
  function Kwargs(kt: KeyType, key: Key, repr: Value -> string): (m: map<string, string>)
    requires |key| <= |kt.fields|
  {
    if |key| <= 1 then map[]
    else Kwargs(kt, key[..|key| - 1], repr)[kt.fields[|key| - 2] := repr(key[|key| - 2])]
  }

  /** For a well-formed key, `kwargs` maps exactly the parameter names, each to its own value's repr. */
  lemma {:induction false} KwargsNamesEveryParameter(kt: KeyType, key: Key, repr: Value -> string)
    requires |key| <= |kt.fields|
    requires Distinct(kt.fields)
    ensures Kwargs(kt, key, repr).Keys == set i | 0 <= i < |key| - 1 :: kt.fields[i]
    ensures forall i | 0 <= i < |key| - 1 :: Kwargs(kt, key, repr)[kt.fields[i]] == repr(key[i])
    decreases |key|
  {
    if |key| > 1 {
      var prev := key[..|key| - 1];
      KwargsNamesEveryParameter(kt, prev, repr);
      forall i | 0 <= i < |key| - 2 ensures kt.fields[i] != kt.fields[|key| - 2] && prev[i] == key[i] {
      }
    }
  }
}
