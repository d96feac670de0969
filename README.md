# pyperaptor pipeline engine in Dafny

This project models the sequential pipeline engine of pyperaptor
(`pyperaptor/pipeline.py`) and proves properties of it.

- A **Device** is a named bounded counter standing for a `BoundedSemaphore`:
  `Get` takes a permit, `Release` gives one back and raises `ValueError`
  above the ceiling (`device.dfy`).
- A **Node** is one stage: a callable, an optional shared Device, a hold
  flag with a key, and the `**refer` keyword arguments in declaration order.
  It is immutable, so it is a datatype (`node.dfy`).
- The carried value is `PyNone | PyInt | PyStr | PyList | PyTuple`. A callable
  is `Function(argcount, call)` (it has `__code__.co_argcount`),
  `CallableObject(call)` (it has `__call__` but no `__code__`) or
  `NotCallable`. `call` stands for everything the Python callable does with
  its positional arguments: it returns a value or raises (`values.dfy`).
- `Engine` (`engine.dfy`) gives the meaning of a push as pure functions:
  - `Arguments` picks the call shape from the carried value;
  - `Run` folds the stages from a start index, threading the value and the
    holding store;
  - `ProcessRun` is the sequential `process` over a list of items.
  The lemmas there give `push` and `process` their properties.
- `Pipeline` (`pipeline.dfy`) is a class. Its fields are the stage list, the
  holding store, the lock flag and the parallel flag, and its methods update
  them in place. `Push` and `Process` are loops proved equal to `Run` and
  `ProcessRun`. In parallel mode `Push` brackets each stage that has a device
  with `Get`/`Release` and is proved to leave every device count as it was,
  also when a stage raises.
- `scenarios.dfy` restates concrete cases from the repository's tests.

Where the code behaves otherwise than its names, messages or tests suggest,
the model follows the code:
- The tuple branch of `push` passes the raw `refer` values, not store
  lookups (pyperaptor/pipeline.py:238-247).
- The scalar branch evaluates `list(*r.values())`. This works only with exactly
  one refer entry whose value is iterable. Two or more entries raise
  `TypeError` (pyperaptor/pipeline.py:252).
- `process` on an unlocked pipeline with an empty item list returns `[]`.
  Only `push` checks the lock.
- A scalar carried value is always passed to the next stage, whatever its
  arity. So `push()` through `[zero, one]` calls `one(0)` and raises
  `TypeError` (`Scenarios.ZeroThenOneRaises`). The test at
  test_pyperaptor.py:137-140 expects 1 there.
- `add` with `pos == 0` appends, because of `if pos:`.

## Model

| member | source | states |
|---|---|---|
| `Values.Iterate` | pyperaptor/pipeline.py:252 | `list(v)`: the items of a list or tuple, the one-character strings of a string, `TypeError` for anything else (both directions) |
| `Values.Truthy` | pyperaptor/pipeline.py:48-49 | Python truthiness: exactly None, 0 and the empty string, list and tuple are false |
| `Values.Invoke` | pyperaptor/pipeline.py:248-253 | `f(*args)`: a callable returns or raises what it does with those arguments; anything else raises `TypeError` |
| `Devices.Device.constructor` | pyperaptor/pipeline.py:21-25 | a device starts with `count == number` permits and satisfies `0 <= count <= number` |
| `Devices.NewDevice` | pyperaptor/pipeline.py:21-25 | construction succeeds exactly when `number >= 1`; otherwise it fails its assertion |
| `Devices.Device.Get` | pyperaptor/pipeline.py:30-31 | with a permit available, lowers the count by one and keeps `0 <= count <= number` |
| `Devices.Device.Release` | pyperaptor/pipeline.py:33-34 | raises the count by one below the ceiling; at the ceiling raises `ValueError` and changes nothing |
| `Nodes.MakeNode` | pyperaptor/pipeline.py:37-52 | construction fails exactly when `hold` is set and `keyName` is falsy; otherwise every field, including the key `get_key` returns, is as given |
| `Nodes.Plain` | pyperaptor/pipeline.py:37-52 | `Node(f)`: the node `MakeNode` builds from `f` with every optional argument at its default, so no device, no hold and no refer |
| `Nodes.ObtainDevice` | pyperaptor/pipeline.py:87-89 | takes one permit from the node's device when it has one |
| `Nodes.ReturnDevice` | pyperaptor/pipeline.py:91-93 | gives one permit back when the node has a device, with the semaphore's `ValueError` at the ceiling |
| `Engine.ReferValues` | pyperaptor/pipeline.py:238-247 | `r.values()`: the refer values in declaration order, one per entry |
| `Engine.ReferKeys` | pyperaptor/pipeline.py:252 | `list(*r.values())`: `[]` with no entry, `list(v)` with one, `TypeError` with two or more |
| `Engine.LookupAll` | pyperaptor/pipeline.py:252 | succeeds exactly when every key is held, then yields `holding[k]` per key in order; otherwise `KeyError` on the first missing key |
| `Engine.Arguments` | pyperaptor/pipeline.py:235-253 | the call shape: None gives `f()`; a tuple goes whole to a one-parameter function and spread otherwise, followed by the raw refer values, with `AttributeError` when there is no `__code__`; any other value gives `f(value)` without refer and `f(value, *held values)` with it, or else the `TypeError` of `list(...)` or the `KeyError` of the first missing key |
| `Engine.StageCall` | pyperaptor/pipeline.py:235-253 | one stage's call: an error building the arguments is raised before the function runs, otherwise the function is invoked on them; a stage holding a non-callable always raises |
| `Engine.Held` | pyperaptor/pipeline.py:262-263 | a holding stage stores its result under its key and every other entry is kept; a non-holding stage leaves the store as it is |
| `Engine.StageIgnoresStore` | pyperaptor/pipeline.py:248-250 | a stage without refer gives the same call whatever the store holds |
| `Engine.Run` | pyperaptor/pipeline.py:225-265 | the stages from `start` applied in order: only a stage can raise, so an empty range always returns the carried value, and stages that do not hold leave the store as it was |
| `Engine.PushFlow` | pyperaptor/pipeline.py:220-223 | an unlocked pipeline raises `UnlockedPipelineError` before any stage runs and leaves the store alone; a locked one runs the stages from `start` |
| `Engine.RunShift` | pyperaptor/pipeline.py:225-265 | the stages after a prefix run as they would on their own |
| `Engine.RunConcat` | pyperaptor/pipeline.py:225-265 | pushing through `a + b` is pushing through `a`, then, unless that raised, through `b` on the store `a` left |
| `Engine.RunHoldsLast` | pyperaptor/pipeline.py:262-263 | after a successful push whose last stage holds, the store maps that key to the returned value |
| `Engine.RunStoreFrame` | pyperaptor/pipeline.py:214-215 | a push drops no key, and a key that no remaining stage holds under keeps its entry or its absence, also when the push raises |
| `Engine.RunReferFree` | pyperaptor/pipeline.py:248-250 | without refer, the value a push returns or the exception it raises does not depend on the store |
| `Engine.ProcessRun` | pyperaptor/pipeline.py:289-294 | a successful sequential process returns one result per item; on an unlocked pipeline it raises `UnlockedPipelineError` at the first item, so it succeeds only on no items |
| `Engine.ProcessInOrder` | pyperaptor/pipeline.py:289-294 | the j-th result is the push of the j-th item, on the store the earlier pushes left |
| `Engine.ProcessReferFree` | pyperaptor/pipeline.py:197-203 | for the stage lists a parallel lock admits, process succeeds exactly when every item's own push succeeds, and returns those pushes' results in input order |
| `Pipelines.AsNode` | pyperaptor/pipeline.py:179-180 | `add` keeps a node as it is and wraps anything else as `Node(f)` with every default |
| `Pipelines.InsertIndex` | pyperaptor/pipeline.py:184 | the position `list.insert` uses: counted from the end when negative, clamped to `0..len` |
| `Pipelines.PlaceAt` | pyperaptor/pipeline.py:183-186 | `pos` of None or 0 appends; any other `pos` inserts at `InsertIndex` |
| `Pipelines.Placed` | pyperaptor/pipeline.py:178-188 | the list grows by exactly one, the new stage sits at its place and the others keep their relative order |
| `Pipelines.Pipeline.constructor` | pyperaptor/pipeline.py:112-127 | one plain stage per function, in order; unlocked, with an empty store |
| `Pipelines.Pipeline.Add` | pyperaptor/pipeline.py:178-188 | on a locked pipeline raises `LockedPipelineError` and leaves the list alone; otherwise the list becomes `Placed(old, node, pos)` |
| `Pipelines.Pipeline.Plus` | pyperaptor/pipeline.py:162-176 | with a pipeline operand appends its stages in order without consulting the lock and returns `self`; with a node or callable behaves as `add(x)`. The operand's list is read once, so `p += p` doubles `p`: this is the corrected behaviour of the second row under "## Findings", where the code as written loops |
| `Pipelines.Pipeline.Validate` | pyperaptor/pipeline.py:197-203 | fails with `PipelineUnsupportedReferInParallelMode` exactly when the pipeline is parallel and some stage has refer entries |
| `Pipelines.Pipeline.Lock` | pyperaptor/pipeline.py:193-195 | sets the flag exactly when validation passes, and always for a sequential pipeline; a failed lock leaves the flag as it was |
| `Pipelines.Pipeline.Unlock` | pyperaptor/pipeline.py:205-212 | clears the flag |
| `Pipelines.Pipeline.Hold` | pyperaptor/pipeline.py:214-215 | the store maps `k` to `v`, every other entry unchanged |
| `Pipelines.Pipeline.Retrieve` | pyperaptor/pipeline.py:217-218 | the value held under `k`, or `KeyError` exactly when nothing is |
| `Pipelines.Pipeline.Push` | pyperaptor/pipeline.py:220-265 | raises `UnlockedPipelineError` when not locked; otherwise result and store are `Run(tasks, start, i, store)`, and every device count ends where it started |
| `Pipelines.Pipeline.Process` | pyperaptor/pipeline.py:289-294 | `__single_process`: results and store are `ProcessRun` of the items, pushed in input order; the first exception propagates; device counts are unchanged |
| `Pipelines.NodePlus` | pyperaptor/pipeline.py:54-66 | node + node or callable is a fresh unlocked two-stage pipeline; node + non-callable raises `InvalidNodeOperation`; node + pipeline raises `TypeError`, or `LockedPipelineError` when locked |
| `Pipelines.NodePlusFront` | pyperaptor/pipeline.py:54-57 | node + pipeline as intended: the node becomes the first stage and the pipeline is returned; a locked pipeline refuses |
| `Pipelines.AliasedMergeAfter` | pyperaptor/pipeline.py:162-165 | for `p += p` on a non-empty `p`, after k appends the list has `|p| + k` stages, so the iterator's index k is still inside it: the loop never ends |
| `Scenarios.IncrementsAdd` | test_pyperaptor.py:142-154 | `push(0)` through `[sum1]` gives 1 and through three `sum1` stages gives 3 |
| `Scenarios.NoArgumentPush` | test_pyperaptor.py:132-135 | `push()` through `[zero]` gives 0 |
| `Scenarios.VoidPushGivesNone` | test_pyperaptor.py:156-163 | `push()` through `[void]` gives None |
| `Scenarios.ZeroThenOneRaises` | pyperaptor/pipeline.py:248-250 | `push()` through `[zero, one]` calls `one(0)` and raises `TypeError` |
| `Scenarios.IdentityProcess` | test_pyperaptor.py:210-217 | sequential process through `[identity]` returns any None-free list of items unchanged and in order |
| `Scenarios.ReferReadsHeldValues` | pyperaptor/pipeline.py:251-253 | a scalar stage whose refer entry lists keys `a`, `b` is called with the value followed by `holding[a]`, `holding[b]` |
| `Scenarios.DeviceCounts` | test_pyperaptor.py:14-23 | a device of two permits counts 2, 1, 0, 1, 2 through two gets and two releases, and a third release raises `ValueError` |
| `Scenarios.Lifecycle` | test_pyperaptor.py:103-122 | push before lock raises `UnlockedPipelineError`; after lock, add raises `LockedPipelineError`, push(0) through three `sum1` gives 3, and `+=` with a one-stage pipeline still makes four stages |
| `Scenarios.ParallelReferRefused` | pyperaptor/pipeline.py:197-203 | a parallel pipeline with a refer stage raises `PipelineUnsupportedReferInParallelMode` on lock and stays unlocked |
| `Scenarios.NodePlusPipeline` | pyperaptor/pipeline.py:54-57 | `identity + Pipeline([sum1])` as written raises `TypeError` and leaves the pipeline as it was; the corrected operator gives `[identity, sum1]` |

## Left out

- Stage callables are pure: `call` maps positional arguments to a result or an exception. A Python stage may keep state between calls, read or write `p.holding` through a closure, or extend a locked pipeline mid-push with `+=` (which skips the lock check, while push's `range` was fixed when the loop started). None of that is modelled, and Engine.RunReferFree, Engine.ProcessReferFree and Engine.ProcessInOrder hold only under this assumption.
- Pipelines.Pipeline.Process models `__single_process`, which `process` names when the pipeline is not parallel. On a parallel pipeline it is that name-mangled method called directly; `process` itself would be `__parallel_process`, which is not modelled (next line).
- `__parallel_process` with its `ThreadPoolExecutor`, `as_completed` and worker count, and `set_parallel`: their point is concurrency and completion order. The parallel flag is kept for `lock` validation and device bracketing.
- The generator path of `__single_process` (no items, with `FunctionType`/`Generator` checks on the first stage): it rests on Python introspection and lazy generators.
- Devices.Device.Get: blocking on an exhausted semaphore is not modelled. A caller must have a permit available, and `Push` requires every device to have one in parallel mode.
- A pipeline used as a stage's callable is an opaque `CallableObject`: its own push and its own holding store are not modelled.
- `add(pipeline)` places a raw Pipeline object in the stage list, where `push` then fails on `get_fn`. `Item` admits only nodes and callables.
- Pipelines.Pipeline.Push: `start` is a natural number. A negative start, which Python would resolve by negative list indexing, is not modelled.
- Hashability: a list used as a hold key or looked up as a refer key raises `TypeError` in Python. The model treats it as an ordinary key.
- Logging in `unlock`, `copy`/`deepcopy`, `__repr__`, `__str__`, `__call__` and the getters `isLocked`, `is_parallel`, `get_fn`, `get_hold`, `get_key` and `get_refer` are glue: the model reads the fields directly. `Device.__repr__` would fail on its missing `__lock__`.
- Argument binding of a Python call, including defaults and `*args`, is folded into each callable's `call` function. Exceptions raised by stage functions are `Raised(code)` or whichever engine error the function returns.
- The `type(number) == int` assertion of `Device`: Dafny's types already make `number` an integer. Assertions stripped under `python -O` are not modelled.

## Findings

| source | as written | input that shows it | evidently intended | confidence | as-written member | corrected member |
|---|---|---|---|---|---|---|
| pyperaptor/pipeline.py:54-57 | `Node.__add__` calls `node.add(0, self)`, with the arguments swapped against `add(node, pos)`. So `0` becomes the stage and the node becomes the position. | any node `n` and unlocked pipeline `p`: `n + p` reaches `list.insert(n, Node(0))` and raises `TypeError`. A locked `p` raises `LockedPipelineError`. | the node becomes `p`'s first stage and `p` is returned | high; not executed | `Pipelines.NodePlus` | `Pipelines.NodePlusFront` |
| pyperaptor/pipeline.py:162-165 | `p += p` runs `for n in node.__tasks__: self.__tasks__.append(n)` over the list it appends to | any `p` with one stage: `p += p` never terminates | `p`'s stages are appended once, doubling it | high; not executed | `Pipelines.AliasedMergeAfter` | `Pipelines.Pipeline.Plus` |
