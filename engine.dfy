/** The meaning of `push` and of sequential `process`, as functions of the
    stage list, the carried value and the holding store. The Pipeline class
    is proved against these. */
module Engine {
  import opened Values
  import opened Nodes

  type Store = map<Value, Value>

  /** `r.values()`: the raw refer values, in declaration order. */
  function ReferValues(rs: seq<Refer>): (vs: seq<Value>)
    ensures |vs| == |rs|
    ensures forall j :: 0 <= j < |rs| ==> vs[j] == rs[j].value
  {
    seq(|rs|, j requires 0 <= j < |rs| => rs[j].value)
  }

  /** `list(*r.values())`: with one refer entry, the items of its value;
      with none, the empty list; with two or more, `list` is given too many
      arguments and raises TypeError. */
  function ReferKeys(rs: seq<Refer>): (r: Result<seq<Value>, Error>)
    ensures |rs| == 0 ==> r == Success([])
    ensures |rs| == 1 ==> r == Iterate(rs[0].value)
    ensures |rs| >= 2 ==> r == Failure(TypeError)
  {
    if |rs| == 0 then Success([])
    else if |rs| == 1 then Iterate(rs[0].value)
    else Failure(TypeError)
  }

  /** `[holding[k] for k in keys]`: fails with KeyError on the first key
      that was never held. */
  function LookupAll(h: Store, keys: seq<Value>): (r: Result<seq<Value>, Error>)
    ensures r.Success? <==> forall k :: k in keys ==> k in h
    ensures r.Success? ==> |r.value| == |keys|
    ensures r.Success? ==> forall j :: 0 <= j < |keys| ==> keys[j] in h && r.value[j] == h[keys[j]]
    ensures r.Failure? ==> exists j :: 0 <= j < |keys| && keys[j] !in h && r.error == KeyError(keys[j])
                                       && forall m :: 0 <= m < j ==> keys[m] in h
  {
    if keys == [] then Success([])
    else if keys[0] !in h then Failure(KeyError(keys[0]))
    else
      match LookupAll(h, keys[1..])
      case Success(vs) => Success([h[keys[0]]] + vs)
      case Failure(e) =>
        assert keys[1..][0] == keys[1];
        Failure(e)
  }

  /** The positional arguments `push` passes to a stage's function, chosen
      from the shape of the carried value. */
  function Arguments(n: Node, i: Value, h: Store): (r: Result<seq<Value>, Error>)
    // None: a call with no arguments
    ensures i.PyNone? ==> r == Success([])
    // a tuple: reading co_argcount fails unless the callable is a plain function
    ensures i.PyTuple? && !n.fn.Function? ==> r == Failure(AttributeError)
    // a tuple given to a one-parameter function travels whole, followed by the raw refer values
    ensures i.PyTuple? && n.fn.Function? && n.fn.argcount == 1 ==> r == Success([i] + ReferValues(n.refer))
    // a tuple given to any other function is spread, followed by the raw refer values
    ensures i.PyTuple? && n.fn.Function? && n.fn.argcount != 1 ==> r == Success(i.items + ReferValues(n.refer))
    // any other value without refer: f(value)
    ensures IsScalar(i) && n.refer == [] ==> r == Success([i])
    // any other value with refer: f(value, *held values named by the refer entry)
    ensures IsScalar(i) && n.refer != [] ==>
              (r.Success? <==> ReferKeys(n.refer).Success? && LookupAll(h, ReferKeys(n.refer).value).Success?)
    ensures IsScalar(i) && n.refer != [] && r.Success? ==>
              r.value == [i] + LookupAll(h, ReferKeys(n.refer).value).value
    // ... and otherwise the TypeError of `list(...)` or the KeyError of the first missing key
    ensures IsScalar(i) && n.refer != [] && r.Failure? ==>
              r.error == (if ReferKeys(n.refer).Failure? then ReferKeys(n.refer).error
                          else LookupAll(h, ReferKeys(n.refer).value).error)
  {
    match i
    case PyNone => Success([])
    case PyTuple(items) =>
      (match n.fn
       case Function(argc, _) =>
         if argc == 1 then Success([i] + ReferValues(n.refer))
         else Success(items + ReferValues(n.refer))
       case _ => Failure(AttributeError))
    case _ =>
      if |n.refer| == 0 then Success([i])
      else
        match ReferKeys(n.refer)
        case Failure(e) => Failure(e)
        case Success(keys) =>
          match LookupAll(h, keys)
          case Failure(e) => Failure(e)
          case Success(vs) => Success([i] + vs)
  }

  /** One stage's call: what its function returns or raises. The function is
      not called when its arguments cannot be built, and a stage holding
      something that is not callable always raises. */
  function StageCall(n: Node, i: Value, h: Store): (r: Result<Value, Error>)
    ensures Arguments(n, i, h).Failure? ==> r == Failure(Arguments(n, i, h).error)
    ensures Arguments(n, i, h).Success? ==> r == Invoke(n.fn, Arguments(n, i, h).value)
    ensures !IsCallable(n.fn) ==> r.Failure?
  {
    match Arguments(n, i, h)
    case Failure(e) => Failure(e)
    case Success(args) => Invoke(n.fn, args)
  }

  /** The store after a stage produced `v`: `hold(key, v)` if the stage holds. */
  function Held(n: Node, v: Value, h: Store): (h': Store)
    ensures n.hold ==> n.key in h' && h'[n.key] == v
    ensures h'.Keys == if n.hold then h.Keys + {n.key} else h.Keys
    ensures forall k :: k in h && !(n.hold && k == n.key) ==> h'[k] == h[k]
  {
    if n.hold then h[n.key := v] else h
  }

  /** The outcome of a push: the returned value or the exception raised,
      and the store as it is left (partly updated after a failure). */
  datatype Flow = Flow(result: Result<Value, Error>, store: Store)

  /** Stages `c..|ts|-1` applied in index order to the carried value `i`.
      Only a stage can raise, and only a holding stage writes the store. */
  function Run(ts: seq<Node>, c: nat, i: Value, h: Store): (f: Flow)
    ensures f.result.Failure? ==> c < |ts|
    ensures (forall j :: c <= j < |ts| ==> !ts[j].hold) ==> f.store == h
    decreases |ts| - c
  {
    if c >= |ts| then Flow(Success(i), h)
    else
      match StageCall(ts[c], i, h)
      case Failure(e) => Flow(Failure(e), h)
      case Success(v) => Run(ts, c + 1, v, Held(ts[c], v, h))
  }

  /** `push(i, start)`: refused on an unlocked pipeline before any stage runs. */
  function PushFlow(locked: bool, ts: seq<Node>, start: nat, i: Value, h: Store): (f: Flow)
    ensures !locked ==> f == Flow(Failure(UnlockedPipelineError), h)
    ensures locked ==> f == Run(ts, start, i, h)
  {
    if !locked then Flow(Failure(UnlockedPipelineError), h) else Run(ts, start, i, h)
  }

  /** Continue a flow with the stages `ts`, unless it already failed. */
  function AndThen(f: Flow, ts: seq<Node>): Flow {
    match f.result
    case Failure(_) => f
    case Success(v) => Run(ts, 0, v, f.store)
  }

  /** No stage refers to the store. */
  predicate ReferFree(ts: seq<Node>) {
    forall j :: 0 <= j < |ts| ==> ts[j].refer == []
  }

  /** The rule `lock` checks: a parallel pipeline may not use refer. */
  predicate LockAllowed(parallel: bool, ts: seq<Node>) {
    !parallel || ReferFree(ts)
  }

  /** The outcome of a sequential `process`. */
  datatype Batch = Batch(results: Result<seq<Value>, Error>, store: Store)

  function Prefixed(rs: seq<Value>, res: Result<seq<Value>, Error>): Result<seq<Value>, Error> {
    match res
    case Success(xs) => Success(rs + xs)
    case Failure(e) => Failure(e)
  }

  /** `__single_process(items)`: each item pushed from stage 0, in order, on
      the store the previous pushes left; the first exception aborts. A
      successful process has one result per item; an unlocked pipeline
      fails on its first item, so it only succeeds on no items at all. */
  function ProcessRun(locked: bool, ts: seq<Node>, items: seq<Value>, h: Store): (b: Batch)
    ensures b.results.Success? ==> |b.results.value| == |items|
    ensures !locked ==> b == Batch(if items == [] then Success([]) else Failure(UnlockedPipelineError), h)
    decreases |items|
  {
    if items == [] then Batch(Success([]), h)
    else
      var f := PushFlow(locked, ts, 0, items[0], h);
      match f.result
      case Failure(e) => Batch(Failure(e), f.store)
      case Success(v) =>
        var rest := ProcessRun(locked, ts, items[1..], f.store);
        Batch(Prefixed([v], rest.results), rest.store)
  }

  // ---------------------------------------------------------------------
  // Properties of a single stage

  /** A stage without refer never reads the store. */
  lemma StageIgnoresStore(n: Node, i: Value, h1: Store, h2: Store)
    requires n.refer == []
    ensures StageCall(n, i, h1) == StageCall(n, i, h2)
  {
  }

  // ---------------------------------------------------------------------
  // Properties of push

  /** The stages of `b` run the same after any prefix `a`. */
  lemma {:induction false} RunShift(a: seq<Node>, b: seq<Node>, k: nat, i: Value, h: Store)
    ensures Run(a + b, |a| + k, i, h) == Run(b, k, i, h)
    decreases |b| - k
  {
    if k < |b| {
      assert (a + b)[|a| + k] == b[k];
      match StageCall(b[k], i, h)
      case Failure(_) =>
      case Success(v) => RunShift(a, b, k + 1, v, Held(b[k], v, h));
    }
  }

  /** Pushing through `a + b` is pushing through `a`, then through `b` on the
      store `a` left: merging pipelines composes their pushes. */
  lemma {:induction false} RunConcat(a: seq<Node>, b: seq<Node>, c: nat, i: Value, h: Store)
    requires c <= |a|
    ensures Run(a + b, c, i, h) == AndThen(Run(a, c, i, h), b)
    decreases |a| - c
  {
    if c == |a| {
      RunShift(a, b, 0, i, h);
    } else {
      assert (a + b)[c] == a[c];
      match StageCall(a[c], i, h)
      case Failure(_) =>
      case Success(v) => RunConcat(a, b, c + 1, v, Held(a[c], v, h));
    }
  }

  /** When the last stage holds, a successful push leaves its result in the
      store under that stage's key. */
  lemma {:induction false} RunHoldsLast(ts: seq<Node>, c: nat, i: Value, h: Store)
    requires c < |ts| && ts[|ts| - 1].hold
    ensures Run(ts, c, i, h).result.Success? ==>
              ts[|ts| - 1].key in Run(ts, c, i, h).store &&
              Run(ts, c, i, h).store[ts[|ts| - 1].key] == Run(ts, c, i, h).result.value
    decreases |ts| - c
  {
    match StageCall(ts[c], i, h)
    case Failure(_) =>
    case Success(v) =>
      if c + 1 < |ts| {
        RunHoldsLast(ts, c + 1, v, Held(ts[c], v, h));
      }
  }

  /** A key that no remaining stage holds under keeps its entry (or its
      absence), whether the push succeeds or fails, and no key is dropped. */
  lemma {:induction false} RunStoreFrame(ts: seq<Node>, c: nat, i: Value, h: Store, k: Value)
    requires forall j :: c <= j < |ts| && ts[j].hold ==> ts[j].key != k
    ensures h.Keys <= Run(ts, c, i, h).store.Keys
    ensures k in Run(ts, c, i, h).store <==> k in h
    ensures k in h ==> Run(ts, c, i, h).store[k] == h[k]
    decreases |ts| - c
  {
    if c < |ts| {
      match StageCall(ts[c], i, h)
      case Failure(_) =>
      case Success(v) => RunStoreFrame(ts, c + 1, v, Held(ts[c], v, h), k);
    }
  }

  /** Without refer, what a push returns does not depend on the store. */
  lemma {:induction false} RunReferFree(ts: seq<Node>, c: nat, i: Value, h1: Store, h2: Store)
    requires ReferFree(ts)
    ensures Run(ts, c, i, h1).result == Run(ts, c, i, h2).result
    decreases |ts| - c
  {
    if c < |ts| {
      StageIgnoresStore(ts[c], i, h1, h2);
      match StageCall(ts[c], i, h1)
      case Failure(_) =>
      case Success(v) => RunReferFree(ts, c + 1, v, Held(ts[c], v, h1), Held(ts[c], v, h2));
    }
  }

  // ---------------------------------------------------------------------
  // Properties of sequential process

  /** The j-th result of a sequential process is the push of the j-th item,
      on the store left by the pushes before it. */
  lemma {:induction false} ProcessInOrder(locked: bool, ts: seq<Node>, items: seq<Value>, h: Store, j: nat)
    requires j < |items|
    requires ProcessRun(locked, ts, items, h).results.Success?
    ensures |ProcessRun(locked, ts, items, h).results.value| == |items|
    ensures PushFlow(locked, ts, 0, items[j], StoreBefore(locked, ts, items, h, j)).result.Success?
    ensures ProcessRun(locked, ts, items, h).results.value[j] ==
              PushFlow(locked, ts, 0, items[j], StoreBefore(locked, ts, items, h, j)).result.value
    decreases j
  {
    var f := PushFlow(locked, ts, 0, items[0], h);
    if j > 0 {
      ProcessInOrder(locked, ts, items[1..], f.store, j - 1);
      assert items[1..][j - 1] == items[j];
    }
  }

  /** The store a sequential process hands to the push of item j. */
  function StoreBefore(locked: bool, ts: seq<Node>, items: seq<Value>, h: Store, j: nat): Store
    requires j <= |items|
    decreases j
  {
    if j == 0 then h
    else StoreBefore(locked, ts, items[1..], PushFlow(locked, ts, 0, items[0], h).store, j - 1)
  }

  /** With no stage reading the store — the pipelines a parallel lock
      admits — sequential process is exactly "push every item from the
      initial store": it succeeds iff every push does, and its results are
      those pushes' results in input order. */
  lemma {:induction false} ProcessReferFree(locked: bool, ts: seq<Node>, items: seq<Value>, h: Store)
    requires ReferFree(ts)
    ensures ProcessRun(locked, ts, items, h).results.Success? <==>
              forall j :: 0 <= j < |items| ==> PushFlow(locked, ts, 0, items[j], h).result.Success?
    ensures ProcessRun(locked, ts, items, h).results.Success? ==>
              |ProcessRun(locked, ts, items, h).results.value| == |items| &&
              forall j :: 0 <= j < |items| ==>
                ProcessRun(locked, ts, items, h).results.value[j] == PushFlow(locked, ts, 0, items[j], h).result.value
    decreases |items|
  {
    if items != [] {
      var f := PushFlow(locked, ts, 0, items[0], h);
      ProcessReferFree(locked, ts, items[1..], f.store);
      forall j | 0 <= j < |items| - 1
        ensures PushFlow(locked, ts, 0, items[1..][j], f.store).result == PushFlow(locked, ts, 0, items[j + 1], h).result
      {
        assert items[1..][j] == items[j + 1];
        RunReferFree(ts, 0, items[j + 1], f.store, h);
      }
      if f.result.Success? {
        var rest := ProcessRun(locked, ts, items[1..], f.store);
        if rest.results.Success? {
          forall j | 0 <= j < |items|
            ensures ProcessRun(locked, ts, items, h).results.value[j] == PushFlow(locked, ts, 0, items[j], h).result.value
          {
            if j > 0 {
              assert ([f.result.value] + rest.results.value)[j] == rest.results.value[j - 1];
            }
          }
        } else {
          var m :| 0 <= m < |items| - 1 && !PushFlow(locked, ts, 0, items[1..][m], f.store).result.Success?;
          assert !PushFlow(locked, ts, 0, items[m + 1], h).result.Success?;
        }
      }
    }
  }
}
