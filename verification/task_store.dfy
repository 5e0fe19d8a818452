/**
 * The router's task store as an abstract map from task id to task. Only the
 * operations the router calls are modelled: `save`, `get`, `task_failed` and
 * `set_remote_task_id`. Durability is not a property of this model.
 */
module TaskStore {
  import opened Wrappers

  /** The A2A task states, with the strings their `.value` renders as. */
  datatype TaskState =
    | Submitted | Working | InputRequired | Completed | Canceled
    | Failed | Rejected | AuthRequired | Unknown
  {
    function Value(): string {
      match this
      case Submitted => "submitted"
      case Working => "working"
      case InputRequired => "input-required"
      case Completed => "completed"
      case Canceled => "canceled"
      case Failed => "failed"
      case Rejected => "rejected"
      case AuthRequired => "auth-required"
      case Unknown => "unknown"
    }
  }

  /**
   * The `context` of a stored request: `NoContext` when the request `Message`
   * carries none, so that reading `request.context` raises; otherwise the
   * mapping's `active_agent` entry, if any.
   */
  datatype RequestContext = NoContext | Context(activeAgent: Option<string>)

  /**
   * A local task. `request` is the user's text and `requestContext` the
   * context of the stored request; `failure` is the message recorded by
   * `task_failed`.
   */
  datatype Task = Task(
    id: string,
    contextId: string,
    request: string,
    state: TaskState,
    remoteTaskId: Option<string>,
    requestContext: RequestContext,
    failure: Option<string>)

  type Store = map<string, Task>

  /** `save(task)`: insert or replace by id. */
  function Save(store: Store, task: Task): (s: Store)
    ensures task.id in s && s[task.id] == task
    ensures s.Keys == store.Keys + {task.id}
    ensures forall id :: id in store && id != task.id ==> s[id] == store[id]
  {
    store[task.id := task]
  }

  /** `get(id)`. */
  function Get(store: Store, id: string): (t: Option<Task>)
    ensures t.Some? <==> id in store
    ensures t.Some? ==> t.value == store[id]
  {
    if id in store then Some(store[id]) else None
  }

  /** The two mutations the dispatch path performs on a saved task. */
  datatype StoreOp =
    | TaskFailed(id: string, message: string)
    | SetRemoteTaskId(id: string, remoteId: string)
  {
    function Target(): string {
      match this
      case TaskFailed(id, _) => id
      case SetRemoteTaskId(id, _) => id
    }
  }

  /**
   * Applying an operation: `set_remote_task_id` records the remote id and
   * advances the task to `working`; `task_failed` records the message and
   * advances it to `failed`. An unknown id changes nothing.
   */
  function Apply(store: Store, op: StoreOp): (s: Store)
    ensures s.Keys == store.Keys
    ensures forall id :: id in store && id != op.Target() ==> s[id] == store[id]
    ensures op.Target() in store ==> match op
      case TaskFailed(id, msg) =>
        s[id] == store[id].(state := Failed, failure := Some(msg))
      case SetRemoteTaskId(id, rid) =>
        s[id] == store[id].(state := Working, remoteTaskId := Some(rid))
    ensures op.Target() !in store ==> s == store
  {
    var id := op.Target();
    if id !in store then store
    else
      var t := store[id];
      match op
      case TaskFailed(_, msg) => store[id := t.(state := Failed, failure := Some(msg))]
      case SetRemoteTaskId(_, rid) => store[id := t.(state := Working, remoteTaskId := Some(rid))]
  }

  /** Operations on different tasks commute. */
  lemma ApplyCommutes(store: Store, a: StoreOp, b: StoreOp)
    requires a.Target() != b.Target()
    ensures Apply(Apply(store, a), b) == Apply(Apply(store, b), a)
  {
    var ab := Apply(Apply(store, a), b);
    var ba := Apply(Apply(store, b), a);
    assert ab.Keys == ba.Keys;
    assert forall id :: id in ab ==> ab[id] == ba[id];
  }
}
