/** The pods of one StatefulSet, the predicates the controller reads off them, and the
    API server's copy of them (controllers/stateful_set_utils.go, stateful_inplace_utils.go,
    stateful_pod_control.go). */
module Pods {

  const MAX_INT32 := 0x7fff_ffff

  datatype Option<+T> = None | Some(value: T)

  /** A pod's name, parsed against its set: `Slot(i)` is the canonical name of ordinal i,
      `Alias` any other member name with the ordinal it parses to (-1 when it has none).
      `Names.KeyOf` computes it from the text. */
  datatype Key = Slot(ordinal: int) | Alias(ordinal: int, text: string)

  /** `Unset` is the empty phase of a pod the API server has not accepted yet. */
  datatype Phase = Unset | Pending | Running | Succeeded | Failed | Unknown

  /** Status of the InPlaceUpdateReady condition. */
  datatype Condition = Absent | IsTrue | IsFalse | IsUnknown

  datatype ContainerStatus = ContainerStatus(name: string, imageID: string)

  /** The in-place-update-state annotation; `Garbled` is one that does not decode. */
  datatype Annotation = NoState | Garbled | State(revision: string, last: map<string, string>)

  /** `conforms` is identityMatches && storageMatches; `gate` tells whether the spec lists the
      InPlaceUpdateReady readiness gate. */
  datatype Pod = Pod(
    key: Key, revision: string, phase: Phase, ready: bool, terminating: bool,
    gate: bool, cond: Condition, note: Annotation, statuses: seq<ContainerStatus>, conforms: bool)

  predicate Created(p: Pod) {
    !p.phase.Unset?
  }

  predicate RunningAndReady(p: Pod) {
    p.phase.Running? && p.ready
  }

  predicate Healthy(p: Pod) {
    RunningAndReady(p) && !p.terminating
  }

  /** What the Current/Updated counters count. */
  predicate Live(p: Pod) {
    Created(p) && !p.terminating
  }

  // ---------- in-place update state ----------

  /** Image ID in the first status carrying `name`. */
  function FirstImage(statuses: seq<ContainerStatus>, name: string): Option<string> {
    if statuses == [] then None
    else if statuses[0].name == name then Some(statuses[0].imageID)
    else FirstImage(statuses[1..], name)
  }

  /** The first status of container `c` exists and shows another image than the recorded one. */
  predicate Moved(statuses: seq<ContainerStatus>, c: string, image: string) {
    FirstImage(statuses, c).Some? && FirstImage(statuses, c).value != image
  }

  /** No in-place update is recorded, or every recorded container has changed its image ID. */
  predicate Completed(p: Pod) {
    match p.note
    case NoState => true
    case Garbled => false
    case State(rev, last) => rev == p.revision && forall c | c in last :: Moved(p.statuses, c, last[c])
  }

  predicate ShouldMarkReady(p: Pod) {
    p.gate && Completed(p) && (p.cond.Absent? || p.cond.IsFalse?)
  }

  /** Image IDs of the containers about to change, a later status of one name winning. */
  function Recorded(statuses: seq<ContainerStatus>, images: map<string, string>): map<string, string> {
    if statuses == [] then map[]
    else
      var c := statuses[|statuses| - 1];
      var rest := Recorded(statuses[..|statuses| - 1], images);
      if c.name in images then rest[c.name := c.imageID] else rest
  }

  function Patched(p: Pod, revision: string, images: map<string, string>): Pod {
    p.(revision := revision, note := State(revision, Recorded(p.statuses, images)))
  }

  // ---------- API server ----------

  type Store = map<Key, Pod>

  datatype Outcome = Ok | Conflict | Error

  datatype Action =
    | Create(pod: Pod)
    | Delete(pod: Pod)
    | SetCondition(pod: Pod, value: Condition)
    | Repair(pod: Pod)
    | Patch(pod: Pod, revision: string, images: map<string, string>)

  datatype Call = Call(action: Action, outcome: Outcome)

  /** Effect of a call on the API server. A finished pod is removed at once, any other one is
      only marked terminating. */
  function Apply(store: Store, call: Call): Store {
    var k := call.action.pod.key;
    if !call.outcome.Ok? then store
    else if call.action.Create? then store[k := call.action.pod.(phase := Pending)]
    else if k !in store then store
    else
      match call.action
      case Delete(_) =>
        if store[k].phase.Failed? || store[k].phase.Succeeded? then store - {k}
        else store[k := store[k].(terminating := true)]
      case SetCondition(_, value) => store[k := store[k].(cond := value)]
      case Repair(_) => store[k := store[k].(conforms := true)]
      case Patch(_, revision, images) => store[k := Patched(store[k], revision, images)]
  }
}
