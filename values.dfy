/** The Python objects the pipeline engine threads through its stages,
    the exceptions it raises, and the callables a stage may hold. */
module Values {

  datatype Option<+T> = None | Some(value: T)

  datatype Result<+T, +E> = Success(value: T) | Failure(error: E)

  datatype Outcome<+E> = Pass | Fail(error: E)

  /** A carried value. The engine distinguishes only None, tuples and
      everything else; strings and lists matter where `list(...)` iterates
      over a stage's refer entry. */
  datatype Value =
    | PyNone
    | PyInt(n: int)
    | PyStr(s: string)
    | PyList(items: seq<Value>)
    | PyTuple(items: seq<Value>)

  /** A value that is neither None nor a tuple: it is passed as one argument. */
  predicate IsScalar(v: Value) {
    !v.PyNone? && !v.PyTuple?
  }

  /** Python truthiness, as used by `if hold: assert keyName` and `if pos:`:
      None, zero and the empty string, list and tuple are false. */
  predicate Truthy(v: Value)
    ensures !Truthy(v) <==> v == PyNone || v == PyInt(0) || v == PyStr("") || v == PyList([]) || v == PyTuple([])
  {
    match v
    case PyNone => false
    case PyInt(n) => n != 0
    case PyStr(s) => s != []
    case PyList(xs) => xs != []
    case PyTuple(xs) => xs != []
  }

  /** The exceptions of the engine, and those a stage's own function raises. */
  datatype Error =
    | LockedPipelineError
    | UnlockedPipelineError
    | PipelineUnsupportedReferInParallelMode
    | InvalidKeyName        // the assertion on keyName in Node.__init__
    | InvalidDeviceNumber   // the assertion on number in Device.__init__
    | InvalidNodeOperation
    | ValueError            // a BoundedSemaphore released above its initial value
    | TypeError
    | AttributeError
    | KeyError(key: Value)
    | Raised(code: int)     // anything a user-supplied stage function raises

  /** `list(v)`: the items of a string (one-character strings), list or tuple;
      a TypeError for anything that is not iterable. */
  function Iterate(v: Value): (r: Result<seq<Value>, Error>)
    ensures r.Success? <==> (v.PyStr? || v.PyList? || v.PyTuple?)
    ensures r.Failure? ==> r.error == TypeError
    ensures (v.PyList? || v.PyTuple?) ==> r == Success(v.items)
    ensures v.PyStr? ==> r.Success? && |r.value| == |v.s|
    ensures v.PyStr? ==> forall j :: 0 <= j < |v.s| ==> r.value[j] == PyStr([v.s[j]])
  {
    match v
    case PyStr(s) => Success(seq(|s|, j requires 0 <= j < |s| => PyStr([s[j]])))
    case PyList(xs) => Success(xs)
    case PyTuple(xs) => Success(xs)
    case _ => Failure(TypeError)
  }

  /** What calling a Python callable with positional arguments does: it
      returns a value or raises. Binding the arguments is part of it. */
  type Call = seq<Value> -> Result<Value, Error>

  /** The callable a stage holds, with the one piece of introspection the
      engine does: `f.__code__.co_argcount` exists only for plain functions. */
  datatype Action =
    | Function(argcount: nat, call: Call)  // a def or lambda
    | CallableObject(call: Call)           // an instance with __call__ (a Pipeline, say)
    | NotCallable(v: Value)                // anything else, e.g. Node(5)

  predicate IsCallable(f: Action) {
    !f.NotCallable?
  }

  /** `f(*args)`: what a callable does with the arguments; calling anything
      else raises TypeError. */
  function Invoke(f: Action, args: seq<Value>): (r: Result<Value, Error>)
    ensures !IsCallable(f) ==> r == Failure(TypeError)
    ensures IsCallable(f) ==> r == f.call(args)
  {
    match f
    case Function(_, call) => call(args)
    case CallableObject(call) => call(args)
    case NotCallable(_) => Failure(TypeError)
  }
}
