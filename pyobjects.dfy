/**
 The few Python objects and runtime rules the call-memoisation core depends on.

 Values stand for the arguments, return values and errors that flow through
 wrapped calls.  Every exception class modelled here is a subclass of
 `Exception`, and `isinstance(v, Exception)` holds exactly of `Exc` values.
 */
module PyObjects {

  datatype Option<+T> = None | Some(value: T)

  datatype Result<+T, +E> = Success(value: T) | Failure(error: E)

  /** A positional-or-keyword parameter; `default` is None when it has none. */
  datatype Param = Param(name: string, default: Option<Value>)

  /** A function object: its identity together with the attributes the core reads. */
  datatype Function = Function(id: nat, name: string, qualname: string, moduleName: string, params: seq<Param>)

  datatype Value =
    | Ellipsis                          // the `...` singleton
    | NoneValue
    | Empty                             // inspect.Parameter.empty
    | Int(i: int)
    | Str(s: string)
    | Func(f: Function)
    | Tuple(items: seq<Value>)          // a tuple, such as a call key
    | Exc(cls: string, args: seq<Value>) // an instance of the exception class `cls`

  /** What one call does for its caller: return a value or raise an error. */
  datatype Outcome = Returned(value: Value) | Raised(error: Value)

  function Error(cls: string, message: string): (e: Value)
    ensures e.Exc? && e.cls == cls && e.args == [Str(message)]
  {
    Exc(cls, [Str(message)])
  }

  /** `type(v) is Exception`: the exact class, not a subclass. */
  predicate IsExactlyException(v: Value) {
    v.Exc? && v.cls == "Exception"
  }

  /** `Exception(e)`: the wrapper under which a raised error is recorded. */
  function WrapFailure(e: Value): (w: Value)
    ensures IsExactlyException(w) && w.args == [e]
  {
    Exc("Exception", [e])
  }

  /** The error that `raise x` actually raises: `x` itself, or a TypeError when `x` is no exception. */
  function RaiseOf(x: Value): (e: Value)
    ensures e.Exc?
    ensures x.Exc? ==> e == x
  {
    if x.Exc? then x else Error("TypeError", "exceptions must derive from BaseException")
  }

  /** `e.args[0]`, or the IndexError that indexing an empty tuple raises. */
  function FirstArg(e: Value): (r: Result<Value, Value>)
    requires e.Exc?
    ensures r.Success? <==> |e.args| > 0
    ensures r.Success? ==> r.value == e.args[0]
  {
    if |e.args| == 0 then Failure(Error("IndexError", "tuple index out of range")) else Success(e.args[0])
  }

  function IndexError(message: string): Value {
    Error("IndexError", message)
  }
}
