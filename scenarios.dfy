/** Concrete pipelines from the repository's tests, stated over the model. */
module Scenarios {
  import opened Values
  import opened Devices
  import opened Nodes
  import opened Engine
  import opened Pipelines

  /** `def sum1(x): return x + 1` */
  const Sum1: Action := Function(1, (args: seq<Value>) =>
    if |args| == 1 && args[0].PyInt? then Success(PyInt(args[0].n + 1)) else Failure(TypeError))

  /** `def identity(x): return x` */
  const Identity: Action := Function(1, (args: seq<Value>) =>
    if |args| == 1 then Success(args[0]) else Failure(TypeError))

  /** `def zero(): return 0` */
  const Zero: Action := Function(0, (args: seq<Value>) =>
    if args == [] then Success(PyInt(0)) else Failure(TypeError))

  /** `def one(): return 1` */
  const One: Action := Function(0, (args: seq<Value>) =>
    if args == [] then Success(PyInt(1)) else Failure(TypeError))

  /** `def void(): pass` */
  const Void: Action := Function(0, (args: seq<Value>) =>
    if args == [] then Success(PyNone) else Failure(TypeError))

  /** `push(0)` through `[sum1]` gives 1 and through `[sum1, sum1, sum1]` gives 3. */
  lemma IncrementsAdd()
    ensures Run([Plain(Sum1)], 0, PyInt(0), map[]) == Flow(Success(PyInt(1)), map[])
    ensures Run([Plain(Sum1), Plain(Sum1), Plain(Sum1)], 0, PyInt(0), map[]) == Flow(Success(PyInt(3)), map[])
  {
    var ts := [Plain(Sum1), Plain(Sum1), Plain(Sum1)];
    assert StageCall(ts[0], PyInt(0), map[]) == Success(PyInt(1));
    assert StageCall(ts[1], PyInt(1), map[]) == Success(PyInt(2));
    assert StageCall(ts[2], PyInt(2), map[]) == Success(PyInt(3));
    assert Run(ts, 2, PyInt(2), map[]) == Flow(Success(PyInt(3)), map[]);
    assert Run(ts, 1, PyInt(1), map[]) == Flow(Success(PyInt(3)), map[]);
  }

  /** `push()` through `[zero]` gives 0. */
  lemma NoArgumentPush()
    ensures Run([Plain(Zero)], 0, PyNone, map[]) == Flow(Success(PyInt(0)), map[])
  {
  }

  /** `push()` through `[void]` gives None. */
  lemma VoidPushGivesNone()
    ensures Run([Plain(Void)], 0, PyNone, map[]) == Flow(Success(PyNone), map[])
  {
  }

  /** `push()` through `[zero, one]`: the 0 that `zero` returns is not None,
      so `one` is called as `one(0)` and raises TypeError. */
  lemma ZeroThenOneRaises()
    ensures Run([Plain(Zero), Plain(One)], 0, PyNone, map[]) == Flow(Failure(TypeError), map[])
  {
  }

  /** Sequential `process` through `[identity]` returns its non-None inputs
      unchanged and in order (a tuple travels whole, identity takes one
      parameter). */
  lemma {:induction false} IdentityProcess(items: seq<Value>, h: Store)
    requires forall j :: 0 <= j < |items| ==> !items[j].PyNone?
    ensures ProcessRun(true, [Plain(Identity)], items, h) == Batch(Success(items), h)
    decreases |items|
  {
    if items != [] {
      var x := items[0];
      assert StageCall(Plain(Identity), x, h) == Success(x);
      assert Run([Plain(Identity)], 0, x, h) == Flow(Success(x), h);
      IdentityProcess(items[1..], h);
      assert [x] + items[1..] == items;
    }
  }

  /** A stage with a refer entry reads the held values it names, in order. */
  lemma ReferReadsHeldValues()
    ensures StageCall(Node(Function(3, (args: seq<Value>) => Success(PyTuple(args))), None, false, PyNone,
                           [Refer("keys", PyList([PyStr("a"), PyStr("b")]))]),
                      PyInt(7), map[PyStr("a") := PyInt(1), PyStr("b") := PyInt(2)])
            == Success(PyTuple([PyInt(7), PyInt(1), PyInt(2)]))
  {
    var h := map[PyStr("a") := PyInt(1), PyStr("b") := PyInt(2)];
    var keys := [PyStr("a"), PyStr("b")];
    assert PyStr("a") != PyStr("b") by { assert "a"[0] != "b"[0]; }
    var r := LookupAll(h, keys);
    assert r.Success?;
    assert r.value == [PyInt(1), PyInt(2)];
    var n := Node(Function(3, (args: seq<Value>) => Success(PyTuple(args))), None, false, PyNone,
                  [Refer("keys", PyList(keys))]);
    assert ReferKeys(n.refer) == Success(keys);
    assert n.refer != [] && IsScalar(PyInt(7));
    assert [PyInt(7)] + r.value == [PyInt(7), PyInt(1), PyInt(2)];
    assert Arguments(n, PyInt(7), h) == Success([PyInt(7), PyInt(1), PyInt(2)]);
  }

  /** A device of two permits, taken twice and given back twice: the counts
      seen after each step, and what a third release raises. */
  method DeviceCounts() returns (counts: seq<int>, extra: Outcome<Error>)
    ensures counts == [2, 1, 0, 1, 2]
    ensures extra == Fail(ValueError)
  {
    var d := new Device("another name", 2);
    counts := [d.count];
    d.Get();
    counts := counts + [d.count];
    d.Get();
    counts := counts + [d.count];
    var _ := d.Release();
    counts := counts + [d.count];
    var _ := d.Release();
    counts := counts + [d.count];
    extra := d.Release();
  }

  /** The life of a pipeline: push is refused before lock, add after it, and
      `+=` with another pipeline still appends its stages. */
  method Lifecycle() returns (early: Result<Value, Error>, late: Outcome<Error>,
                               three: Result<Value, Error>, merged: nat)
    ensures early == Failure(UnlockedPipelineError)
    ensures late == Fail(LockedPipelineError)
    ensures three == Success(PyInt(3))
    ensures merged == 4
  {
    var p := new Pipeline([Sum1, Sum1, Sum1], false);
    early := p.Push(PyInt(0), 0);
    var _ := p.Lock();
    late := p.Add(Bare(Sum1), None);
    IncrementsAdd();
    assert p.tasks == [Plain(Sum1), Plain(Sum1), Plain(Sum1)] && p.holding == map[];
    three := p.Push(PyInt(0), 0);
    var q := new Pipeline([Identity], false);
    var _, _ := p.Plus(Whole(q));
    merged := |p.tasks|;
  }

  /** A parallel pipeline whose stage refers to the store cannot be locked. */
  method ParallelReferRefused() returns (r: Outcome<Error>, locked: bool)
    ensures r == Fail(PipelineUnsupportedReferInParallelMode)
    ensures !locked
  {
    var p := new Pipeline([], true);
    var node := Node(Sum1, None, false, PyNone, [Refer("keys", PyList([PyStr("a")]))]);
    var _ := p.Add(Staged(node), None);
    r := p.Lock();
    locked := p.locked;
  }

  /** `node + pipeline` as written fails and leaves the pipeline alone; the
      corrected one puts the node first. */
  method NodePlusPipeline() returns (asWritten: Error, before: seq<Node>, after: seq<Node>)
    ensures asWritten == TypeError
    ensures before == [Plain(Sum1)]
    ensures after == [Plain(Identity), Plain(Sum1)]
  {
    var p := new Pipeline([Sum1], false);
    var n := Plain(Identity);
    var r := NodePlus(n, Whole(p));
    asWritten := r.error;
    before := p.tasks;
    var _ := NodePlusFront(n, p);
    after := p.tasks;
  }
}
