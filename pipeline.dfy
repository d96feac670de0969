/** The Pipeline: an ordered, lockable list of stages with a holding store,
    driving `push` and sequential `process`. */
module Pipelines {
  import opened Values
  import opened Devices
  import opened Nodes
  import opened Engine

  /** What `add` accepts: a Node, or a bare callable it wraps in `Node(f)`. */
  datatype Item = Staged(node: Node) | Bare(f: Action)

  /** A node is kept as it is; a bare callable becomes `Node(f)` with every
      optional argument at its default. */
  function AsNode(x: Item): (n: Node)
    ensures x.Staged? ==> n == x.node
    ensures x.Bare? ==> MakeNode(x.f, None, false, PyNone, []) == Success(n)
  {
    match x
    case Staged(n) => n
    case Bare(f) => Plain(f)
  }

  /** The right operand of `+`, `+=` on a pipeline and of `+` on a node. */
  datatype Operand = Single(item: Item) | Whole(p: Pipeline)

  /** The index `list.insert(pos, x)` uses on a list of length `len`:
      negative positions count from the end, and both ends are clamped. */
  function InsertIndex(len: nat, pos: int): (k: nat)
    ensures k <= len
    ensures 0 <= pos <= len ==> k == pos
    ensures pos > len ==> k == len
    ensures -(len as int) <= pos < 0 ==> k == len + pos
    ensures pos < -(len as int) ==> k == 0
  {
    if pos < 0 then (if len + pos < 0 then 0 else len + pos)
    else if pos > len then len
    else pos
  }

  /** Where `add(node, pos)` puts the new stage: `if pos:` treats both
      None and 0 as "no position", so those append. */
  function PlaceAt(len: nat, pos: Option<int>): (k: nat)
    ensures k <= len
    ensures pos == None || pos == Some(0) ==> k == len
    ensures pos.Some? && pos.value != 0 ==> k == InsertIndex(len, pos.value)
  {
    if pos.Some? && pos.value != 0 then InsertIndex(len, pos.value) else len
  }

  /** The stage list after `add(x, pos)`: one stage more, `x` at its place,
      every other stage in its old relative order. */
  function Placed(ts: seq<Node>, x: Node, pos: Option<int>): (r: seq<Node>)
    ensures |r| == |ts| + 1
    ensures r[PlaceAt(|ts|, pos)] == x
    ensures r[..PlaceAt(|ts|, pos)] + r[PlaceAt(|ts|, pos) + 1..] == ts
    ensures pos == None || pos == Some(0) ==> r == ts + [x]
  {
    var k := PlaceAt(|ts|, pos);
    assert (ts[..k] + [x] + ts[k..])[..k] == ts[..k];
    assert (ts[..k] + [x] + ts[k..])[k + 1..] == ts[k..];
    ts[..k] + [x] + ts[k..]
  }

  lemma PrefixedNothing(res: Result<seq<Value>, Error>)
    ensures Prefixed([], res) == res
  {
    if res.Success? {
      assert [] + res.value == res.value;
    }
  }

  lemma PrefixedAppend(rs: seq<Value>, v: Value, res: Result<seq<Value>, Error>)
    ensures Prefixed(rs, Prefixed([v], res)) == Prefixed(rs + [v], res)
  {
    if res.Success? {
      assert rs + ([v] + res.value) == rs + [v] + res.value;
    }
  }

  class Pipeline {
    var tasks: seq<Node>
    var holding: Store
    var locked: bool
    const parallel: bool

    /** `Pipeline(functions_list, parallel)`: one plain stage per function,
        unlocked, with an empty store. */
    constructor (fns: seq<Action>, parallel: bool)
      ensures |tasks| == |fns|
      ensures forall j :: 0 <= j < |fns| ==> tasks[j] == Plain(fns[j])
      ensures holding == map[] && !locked && this.parallel == parallel
    {
      var ts: seq<Node> := [];
      for j := 0 to |fns|
        invariant |ts| == j
        invariant forall m :: 0 <= m < j ==> ts[m] == Plain(fns[m])
      {
        ts := ts + [Plain(fns[j])];
      }
      tasks := ts;
      holding := map[];
      locked := false;
      this.parallel := parallel;
    }

    /** `add(node, pos)`: refused once locked; otherwise the stage is placed
        as Placed describes. */
    method Add(x: Item, pos: Option<int>) returns (r: Outcome<Error>)
      modifies this`tasks
      ensures old(locked) ==> r == Fail(LockedPipelineError) && tasks == old(tasks)
      ensures !old(locked) ==> r == Pass && tasks == Placed(old(tasks), AsNode(x), pos)
    {
      var node := AsNode(x);
      if !locked {
        var k := PlaceAt(|tasks|, pos);
        tasks := tasks[..k] + [node] + tasks[k..];
        r := Pass;
      } else {
        r := Fail(LockedPipelineError);
      }
    }

    /** `self += other` and `self + other` (the two share one body): a
        pipeline operand's stages are appended one by one, in order, without
        consulting the lock; any other operand goes through `add`. Returns
        `self`. The operand's list is read once before appending, so
        `p += p` doubles `p` (see AliasedMergeAfter for the code as written). */
    method Plus(other: Operand) returns (self: Pipeline, r: Outcome<Error>)
      modifies this`tasks
      ensures self == this
      ensures other.Whole? ==> r == Pass && tasks == old(tasks) + old(other.p.tasks)
      ensures other.Single? && old(locked) ==> r == Fail(LockedPipelineError) && tasks == old(tasks)
      ensures other.Single? && !old(locked) ==> r == Pass && tasks == old(tasks) + [AsNode(other.item)]
    {
      self := this;
      match other
      case Whole(p) =>
        var src := p.tasks;
        for j := 0 to |src|
          invariant tasks == old(tasks) + src[..j]
        {
          tasks := tasks + [src[j]];
        }
        r := Pass;
      case Single(x) =>
        r := Add(x, None);
    }

    /** `__validate__`: a parallel pipeline in which some stage has refer
        entries is rejected. */
    method Validate() returns (r: Outcome<Error>)
      ensures r.Pass? <==> LockAllowed(parallel, tasks)
      ensures r.Fail? ==> r.error == PipelineUnsupportedReferInParallelMode
    {
      if parallel {
        for j := 0 to |tasks|
          invariant forall m :: 0 <= m < j ==> tasks[m].refer == []
        {
          if |tasks[j].refer| > 0 {
            return Fail(PipelineUnsupportedReferInParallelMode);
          }
        }
      }
      return Pass;
    }

    /** `lock`: validates, and sets the flag only when validation passes. */
    method Lock() returns (r: Outcome<Error>)
      modifies this`locked
      ensures r.Pass? <==> LockAllowed(parallel, tasks)
      ensures r.Fail? ==> r.error == PipelineUnsupportedReferInParallelMode
      ensures locked == (old(locked) || r.Pass?)
    {
      r := Validate();
      if r.Pass? {
        locked := true;
      }
    }

    /** `unlock`: clears the flag (the source also logs a critical message). */
    method Unlock()
      modifies this`locked
      ensures !locked
    {
      locked := false;
    }

    /** `hold(k, v)`. */
    method Hold(k: Value, v: Value)
      modifies this`holding
      ensures holding == old(holding)[k := v]
    {
      holding := holding[k := v];
    }

    /** `retrieve(k)`: the value last held under `k`, or KeyError. */
    method Retrieve(k: Value) returns (r: Result<Value, Error>)
      ensures r.Success? <==> k in holding
      ensures r.Success? ==> r.value == holding[k]
      ensures r.Failure? ==> r.error == KeyError(k)
    {
      if k in holding {
        r := Success(holding[k]);
      } else {
        r := Failure(KeyError(k));
      }
    }

    /** `push(i, start)`: on a locked pipeline, stages `start..` are applied
        in order as Run describes, held results go to the store; in parallel
        mode each stage with a device takes a permit before its call and
        gives it back afterwards, also when the call raises, so every device
        count is what it was. */
    method Push(i: Value, start: nat) returns (r: Result<Value, Error>)
      requires parallel ==> DevicesReady(tasks)
      modifies this`holding, DeviceSet(tasks)
      ensures Flow(r, holding) == PushFlow(locked, tasks, start, i, old(holding))
      ensures forall d :: d in DeviceSet(tasks) ==> d.count == old(d.count)
    {
      if !locked {
        return Failure(UnlockedPipelineError);
      }
      var v := i;
      var c := start;
      while c < |tasks|
        invariant Run(tasks, start, i, old(holding)) == Run(tasks, c, v, holding)
        invariant forall d :: d in DeviceSet(tasks) ==> d.count == old(d.count)
        decreases |tasks| - c
      {
        var n := tasks[c];
        var guarded := parallel && n.HasDevice();
        if guarded {
          DeviceOfStage(tasks, c);
          n.dev.value.Get();
        }
        var out := StageCall(n, v, holding);
        if guarded {
          var _ := n.dev.value.Release();
        }
        if out.Failure? {
          return Failure(out.error);
        }
        v := out.value;
        if n.hold {
          Hold(n.key, v);
        }
        c := c + 1;
      }
      return Success(v);
    }

    /** `__single_process(items)`: pushes every item from stage 0, in input
        order, and collects the results; the first exception propagates. */
    method Process(items: seq<Value>) returns (r: Result<seq<Value>, Error>)
      requires parallel ==> DevicesReady(tasks)
      modifies this`holding, DeviceSet(tasks)
      ensures Batch(r, holding) == ProcessRun(locked, tasks, items, old(holding))
      ensures forall d :: d in DeviceSet(tasks) ==> d.count == old(d.count)
    {
      var results: seq<Value> := [];
      assert items[0..] == items;
      PrefixedNothing(ProcessRun(locked, tasks, items, holding).results);
      for j := 0 to |items|
        invariant ProcessRun(locked, tasks, items, old(holding)) ==
                    Batch(Prefixed(results, ProcessRun(locked, tasks, items[j..], holding).results),
                          ProcessRun(locked, tasks, items[j..], holding).store)
        invariant forall d :: d in DeviceSet(tasks) ==> d.count == old(d.count)
      {
        assert items[j..][0] == items[j] && items[j..][1..] == items[j + 1..];
        var out := Push(items[j], 0);
        if out.Failure? {
          return Failure(out.error);
        }
        PrefixedAppend(results, out.value, ProcessRun(locked, tasks, items[j + 1..], holding).results);
        results := results + [out.value];
      }
      assert items[|items|..] == [];
      assert results + [] == results;
      return Success(results);
    }
  }

  /** `node + other` as written: a node with a node or a callable makes a new
      two-stage pipeline; anything else raises InvalidNodeOperation. With a
      pipeline it calls `other.add(0, node)`, arguments swapped: `0` becomes
      the stage and the node becomes the position, so an unlocked pipeline
      raises TypeError from `list.insert` and a locked one
      LockedPipelineError; the pipeline never changes. */
  method NodePlus(n: Node, other: Operand) returns (r: Result<Pipeline, Error>)
    ensures other.Single? && other.item.Bare? && !IsCallable(other.item.f) ==> r == Failure(InvalidNodeOperation)
    ensures other.Single? && (other.item.Staged? || IsCallable(other.item.f)) ==>
              r.Success? && fresh(r.value) && r.value.tasks == [n, AsNode(other.item)] &&
              !r.value.locked && !r.value.parallel && r.value.holding == map[]
    ensures other.Whole? ==> r == Failure(if other.p.locked then LockedPipelineError else TypeError)
  {
    match other
    case Whole(p) =>
      r := Failure(if p.locked then LockedPipelineError else TypeError);
    case Single(x) =>
      if x.Bare? && !IsCallable(x.f) {
        r := Failure(InvalidNodeOperation);
      } else {
        var pipe := new Pipeline([], false);
        var _ := pipe.Add(Staged(n), None);
        var _ := pipe.Add(x, None);
        r := Success(pipe);
      }
  }

  /** `node + pipeline` as evidently intended: the node becomes the
      pipeline's first stage, which is returned; a locked pipeline refuses. */
  method NodePlusFront(n: Node, p: Pipeline) returns (r: Result<Pipeline, Error>)
    modifies p`tasks
    ensures old(p.locked) ==> r == Failure(LockedPipelineError) && p.tasks == old(p.tasks)
    ensures !old(p.locked) ==> r == Success(p) && p.tasks == [n] + old(p.tasks)
  {
    if p.locked {
      return Failure(LockedPipelineError);
    }
    p.tasks := [n] + p.tasks;
    return Success(p);
  }

  /** `p += p` as written: `for n in node.__tasks__: self.__tasks__.append(n)`
      iterates over the very list it appends to. After k appends the list
      has grown by k, so the iterator's next index k is always still inside
      it and the loop never ends on a non-empty pipeline. */
  function AliasedMergeAfter(orig: seq<Node>, k: nat): (l: seq<Node>)
    requires |orig| > 0
    ensures |l| == |orig| + k
    ensures k < |l|
    ensures l[..|orig|] == orig
  {
    if k == 0 then orig
    else
      var prev := AliasedMergeAfter(orig, k - 1);
      prev + [prev[k - 1]]
  }
}
