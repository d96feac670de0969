/** A Node: one stage of a pipeline. Immutable once built, so a value; its
    device is a shared reference. */
module Nodes {
  import opened Values
  import opened Devices

  /** One `**refer` keyword argument, in declaration order. */
  datatype Refer = Refer(name: string, value: Value)

  datatype Node = Node(fn: Action, dev: Option<Device>, hold: bool, key: Value, refer: seq<Refer>)
  {
    predicate HasDevice() {
      dev.Some?
    }
  }

  /** `Node(clb)` with every optional argument left at its default. */
  function Plain(fn: Action): (n: Node)
    ensures MakeNode(fn, None, false, PyNone, []) == Success(n)
    ensures n.fn == fn && !n.HasDevice() && !n.hold && n.refer == []
  {
    Node(fn, None, false, PyNone, [])
  }

  /** `Node(clb, dev, hold, keyName, **refer)`: a node that holds its result
      must be given a truthy key name. */
  function MakeNode(fn: Action, dev: Option<Device>, hold: bool, keyName: Value, refer: seq<Refer>): (r: Result<Node, Error>)
    ensures r.Failure? <==> hold && !Truthy(keyName)
    ensures r.Failure? ==> r.error == InvalidKeyName
    ensures r.Success? ==> r.value.fn == fn && r.value.dev == dev && r.value.hold == hold
    ensures r.Success? ==> r.value.key == keyName && r.value.refer == refer
    ensures r.Success? && hold ==> Truthy(r.value.key)
  {
    if hold && !Truthy(keyName) then Failure(InvalidKeyName)
    else Success(Node(fn, dev, hold, keyName, refer))
  }

  /** The devices the given stages name. */
  function DeviceSet(ts: seq<Node>): set<Device> {
    set j | 0 <= j < |ts| && ts[j].dev.Some? :: ts[j].dev.value
  }

  lemma DeviceOfStage(ts: seq<Node>, j: nat)
    requires j < |ts| && ts[j].dev.Some?
    ensures ts[j].dev.value in DeviceSet(ts)
  {
  }

  /** Every device of the given stages has a permit available. */
  ghost predicate DevicesReady(ts: seq<Node>)
    reads DeviceSet(ts)
  {
    forall d :: d in DeviceSet(ts) ==> d.Valid() && d.count > 0
  }

  /** `obtain_device`: take a permit from the node's device, if it has one. */
  method ObtainDevice(n: Node)
    requires n.dev.Some? ==> n.dev.value.Valid() && n.dev.value.count > 0
    modifies DeviceSet([n])
    ensures n.dev.Some? ==> n.dev.value.Valid() && n.dev.value.count == old(n.dev.value.count) - 1
  {
    if n.HasDevice() {
      DeviceOfStage([n], 0);
      n.dev.value.Get();
    }
  }

  /** `return_device`: give the permit back, if the node has a device. */
  method ReturnDevice(n: Node) returns (r: Outcome<Error>)
    requires n.dev.Some? ==> n.dev.value.Valid()
    modifies DeviceSet([n])
    ensures n.dev.None? ==> r == Pass
    ensures n.dev.Some? ==> n.dev.value.Valid()
    ensures n.dev.Some? && old(n.dev.value.count) < n.dev.value.number ==>
              r == Pass && n.dev.value.count == old(n.dev.value.count) + 1
    ensures n.dev.Some? && old(n.dev.value.count) == n.dev.value.number ==>
              r == Fail(ValueError) && n.dev.value.count == old(n.dev.value.count)
  {
    r := Pass;
    if n.HasDevice() {
      DeviceOfStage([n], 0);
      r := n.dev.value.Release();
    }
  }
}
