/**
 * The host agent's router: `send_message` (find a card, save a task, then
 * either start the OAuth flow or dispatch), the response processing that
 * follows a dispatch, `get_task_status`, `initiate_oauth_flow` and
 * `list_available_agents`. The session state is the per-conversation
 * dictionary the caller supplies; the registry, the set of agents with a
 * connection, and the task store are explicit inputs and outputs.
 */
module Router {
  import opened Wrappers
  import opened Text
  import opened RouterCards
  import opened TaskStore

  /** The four keys of the session-state dictionary the router reads or writes. */
  datatype SessionState = SessionState(
    tenantId: Option<string>,
    accessToken: Option<string>,
    activeAgent: Option<string>,
    contextId: Option<string>)

  // ---------------------------------------------------------------- OAuth

  /** The callback `REDIRECT_URI` falls back to when the environment does not set it. */
  const DefaultRedirectUri: string := "http://localhost:8083/callback"
  const OAuthScope: string := "openid profile email api:read"
  const NoAuthorizationUri: string := "Authorization URI not found in security details."

  /**
   * `initiate_oauth_flow`'s result: the error dictionary, or the redirect
   * dictionary with the authorization endpoint, the query parameters (in
   * order, before percent-encoding) and the echoed task id.
   */
  datatype OAuthResponse =
    | OAuthError(error: string)
    | OAuthRedirect(authorizationUri: string, params: seq<(string, string)>, taskId: string)

  /** The value of the first parameter named `key`. */
  function Param(params: seq<(string, string)>, key: string): (v: Option<string>)
    ensures v.Some? <==> exists i :: 0 <= i < |params| && params[i].0 == key
    ensures v.Some? ==> exists i :: 0 <= i < |params| && params[i] == (key, v.value)
  {
    if |params| == 0 then None
    else if params[0].0 == key then Some(params[0].1)
    else
      var v := Param(params[1..], key);
      assert v.Some? ==> params[1..][0..] == params[1..];
      v
  }

  const StatePrefix: string := "{\"task_id\": \""
  const StateSuffix: string := "\"}"

  /** `json.dumps({"task_id": task_id})`. */
  function StateJson(taskId: string): string {
    StatePrefix + taskId + StateSuffix
  }

  /** What the callback reads back from `state`: the task id between the fixed prefix and suffix. */
  function TaskIdFromState(state: string): (id: Option<string>)
    ensures id.Some? ==> StateJson(id.value) == state
  {
    if |state| >= |StatePrefix| + |StateSuffix|
       && state[..|StatePrefix|] == StatePrefix
       && state[|state| - |StateSuffix|..] == StateSuffix
    then
      var id := state[|StatePrefix|..|state| - |StateSuffix|];
      assert state == state[..|StatePrefix|] + id + state[|state| - |StateSuffix|..];
      Some(id)
    else None
  }

  /** The `state` parameter carries the task id back: reading it recovers exactly the id put in. */
  lemma StateRoundTrip(taskId: string)
    ensures TaskIdFromState(StateJson(taskId)) == Some(taskId)
  {
    var s := StateJson(taskId);
    assert s[..|StatePrefix|] == StatePrefix;
    assert s[|s| - |StateSuffix|..] == StateSuffix;
    assert s[|StatePrefix|..|s| - |StateSuffix|] == taskId;
  }

  /**
   * `initiate_oauth_flow`: without a (non-empty) `authorization_uri` in the
   * card's security details, the error dictionary; otherwise an authorization
   * request naming the agent as the client, with the fixed scope, the
   * configured redirect and the task id in `state`.
   */
  function InitiateOAuthFlow(
    agentName: string, security: map<string, string>, taskId: string, redirectEnv: Option<string>
  ): (r: OAuthResponse)
    ensures r.OAuthError? <==> !Truthy(Lookup(security, Some("authorization_uri")))
    ensures r.OAuthError? ==> r.error == NoAuthorizationUri
    ensures r.OAuthRedirect? ==>
      && r.authorizationUri == security["authorization_uri"]
      && r.taskId == taskId
      && Param(r.params, "response_type") == Some("code")
      && Param(r.params, "client_id") == Some(agentName)
      && Param(r.params, "redirect_uri") == Some(redirectEnv.GetOr(DefaultRedirectUri))
      && Param(r.params, "scope") == Some(OAuthScope)
      && Param(r.params, "state").Some?
      && TaskIdFromState(Param(r.params, "state").value) == Some(taskId)
  {
    var authUri := Lookup(security, Some("authorization_uri"));
    if !Truthy(authUri) then OAuthError(NoAuthorizationUri)
    else
      var params := [
        ("response_type", "code"),
        ("client_id", agentName),
        ("redirect_uri", redirectEnv.GetOr(DefaultRedirectUri)),
        ("scope", OAuthScope),
        ("state", StateJson(taskId))
      ];
      StateRoundTrip(taskId);
      assert Param(params[4..], "state") == Some(StateJson(taskId));
      assert Param(params[3..], "scope") == Some(OAuthScope);
      assert Param(params[3..], "state") == Param(params[4..], "state");
      assert Param(params[2..], "redirect_uri") == Some(redirectEnv.GetOr(DefaultRedirectUri));
      assert Param(params[2..], "scope") == Param(params[3..], "scope");
      assert Param(params[2..], "state") == Param(params[3..], "state");
      OAuthRedirect(authUri.value, params, taskId)
  }

  // --------------------------------------------------------- send_message

  /** The message a background dispatch sends, and to whom. */
  datatype Dispatch = Dispatch(
    agentName: string,
    text: string,
    contextId: string,
    headers: map<string, string>,
    taskId: string)

  /**
   * What `send_message` returns: the apology, the OAuth dictionary, or the
   * confirmation together with the dispatch it has scheduled. `Raised` is an
   * exception escaping the call.
   */
  datatype Reply =
    | NoAgent(message: string)
    | OAuthRequired(oauth: OAuthResponse)
    | Started(confirmation: string, dispatch: Dispatch)
    | Raised(exception: string)

  datatype SendOutcome = SendOutcome(reply: Reply, session: SessionState, store: Store)

  function NoAgentMessage(agentType: string): string {
    "I'm sorry, I can't find an agent with the type '" + agentType + "'. Please choose from the available agent types."
  }

  const ConfirmationPrefix: string := "I've started working on that for you. The task ID is "

  function Confirmation(taskId: string): string {
    ConfirmationPrefix + taskId + "."
  }

  /** `if found_card.security`: a security dictionary that is present and not empty. */
  predicate Secured(card: AgentCard) {
    card.security.Some? && |card.security.value| > 0
  }

  /** The dispatch headers: a bearer `Authorization` header exactly when there is a token. */
  function Headers(accessToken: Option<string>): (h: map<string, string>)
    ensures "Authorization" in h <==> Truthy(accessToken)
    ensures "Authorization" in h ==> h["Authorization"] == "Bearer " + accessToken.value
    ensures h.Keys <= {"Authorization"}
  {
    if Truthy(accessToken) then map["Authorization" := "Bearer " + accessToken.value] else map[]
  }

  /** The conversation's context id: the session's when it has one, otherwise the fresh one. */
  function ContextFor(session: SessionState, freshContextId: string): string {
    if Truthy(session.contextId) then session.contextId.value else freshContextId
  }

  /** The task `send_message` saves before deciding anything else; its request `Message` has no context. */
  function NewTask(taskId: string, contextId: string, text: string): Task {
    Task(taskId, contextId, text, Submitted, None, NoContext, None)
  }

  /**
   * `send_message` with the background send recorded as a scheduled
   * dispatch. `taskId` and `freshContextId` stand for the generated UUIDs;
   * `redirectEnv` is the `REDIRECT_URI` environment variable.
   */
  function SendMessage(
    cards: Registry, agentType: string, text: string, session: SessionState, store: Store,
    taskId: string, freshContextId: string, redirectEnv: Option<string>
  ): (o: SendOutcome)
    // no matching card: the apology, and nothing saved or written back
    ensures o.reply.NoAgent? <==> FindAgentCardByType(cards, agentType, session.tenantId).None?
    ensures o.reply.NoAgent? ==> o.reply.message == NoAgentMessage(agentType) && o.session == session && o.store == store
    // otherwise exactly one submitted task is saved and the context id is written back
    ensures !o.reply.NoAgent? ==>
      && o.store == Save(store, NewTask(taskId, ContextFor(session, freshContextId), text))
      && o.session.contextId == Some(ContextFor(session, freshContextId))
      && (Truthy(session.contextId) ==> o.session.contextId == session.contextId)
    // a secured card without a token: the OAuth dictionary, and no active agent is recorded
    ensures o.reply.OAuthRequired? <==>
      && FindAgentCardByType(cards, agentType, session.tenantId).Some?
      && Secured(FindAgentCardByType(cards, agentType, session.tenantId).value)
      && !Truthy(session.accessToken)
    ensures o.reply.OAuthRequired? ==> o.session.activeAgent == session.activeAgent
    ensures o.reply.OAuthRequired? ==>
      var card := FindAgentCardByType(cards, agentType, session.tenantId).value;
      o.reply.oauth == InitiateOAuthFlow(card.name, card.security.value, taskId, redirectEnv)
    // otherwise a dispatch to the found agent, with the bearer header exactly when there is a token
    ensures o.reply.Started? ==>
      var card := FindAgentCardByType(cards, agentType, session.tenantId).value;
      && o.session.activeAgent == Some(card.name)
      && o.reply.dispatch == Dispatch(card.name, text, ContextFor(session, freshContextId), Headers(session.accessToken), taskId)
      && o.reply.confirmation == Confirmation(taskId)
    ensures !o.reply.Raised?
    ensures o.session.tenantId == session.tenantId && o.session.accessToken == session.accessToken
  {
    match FindAgentCardByType(cards, agentType, session.tenantId)
    case None => SendOutcome(NoAgent(NoAgentMessage(agentType)), session, store)
    case Some(card) =>
      var contextId := ContextFor(session, freshContextId);
      var saved := Save(store, NewTask(taskId, contextId, text));
      var withContext := session.(contextId := Some(contextId));
      if Secured(card) && !Truthy(session.accessToken) then
        SendOutcome(OAuthRequired(InitiateOAuthFlow(card.name, card.security.value, taskId, redirectEnv)), withContext, saved)
      else
        var dispatch := Dispatch(card.name, text, contextId, Headers(session.accessToken), taskId);
        SendOutcome(Started(Confirmation(taskId), dispatch), withContext.(activeAgent := Some(card.name)), saved)
  }

  /** With a fresh task id, a call that finds a card grows the store by exactly one task. */
  lemma SendMessageSavesOneTask(
    cards: Registry, agentType: string, text: string, session: SessionState, store: Store,
    taskId: string, freshContextId: string, redirectEnv: Option<string>)
    requires taskId !in store
    ensures var o := SendMessage(cards, agentType, text, session, store, taskId, freshContextId, redirectEnv);
      |o.store.Keys| == |store.Keys| + (if o.reply.NoAgent? then 0 else 1)
  {
    var o := SendMessage(cards, agentType, text, session, store, taskId, freshContextId, redirectEnv);
    if !o.reply.NoAgent? {
      assert o.store.Keys == store.Keys + {taskId};
    }
  }

  /** The confirmation names the task, and the task id can be read back from it. */
  lemma ConfirmationNamesTask(taskId: string)
    ensures Mentions(Confirmation(taskId), taskId)
    ensures Confirmation(taskId)[|ConfirmationPrefix|..|Confirmation(taskId)| - 1] == taskId
  {
    MentionsInside(ConfirmationPrefix, taskId, ".");
  }

  /**
   * `send_message` as the file stands: `asyncio` is never imported, so the
   * background-send line raises `NameError` after the task is saved and the
   * active agent recorded.
   */
  function SendMessageAsWritten(
    cards: Registry, agentType: string, text: string, session: SessionState, store: Store,
    taskId: string, freshContextId: string, redirectEnv: Option<string>
  ): (o: SendOutcome)
    ensures !o.reply.Started?
  {
    var o := SendMessage(cards, agentType, text, session, store, taskId, freshContextId, redirectEnv);
    if o.reply.Started? then o.(reply := Raised("NameError: name 'asyncio' is not defined")) else o
  }

  /**
   * Whenever the intended code would dispatch, the code as written raises
   * instead, leaving a `submitted` task that nothing will ever advance; on
   * every other path the two agree.
   */
  lemma AsWrittenNeverDispatches(
    cards: Registry, agentType: string, text: string, session: SessionState, store: Store,
    taskId: string, freshContextId: string, redirectEnv: Option<string>)
    ensures var intended := SendMessage(cards, agentType, text, session, store, taskId, freshContextId, redirectEnv);
      var written := SendMessageAsWritten(cards, agentType, text, session, store, taskId, freshContextId, redirectEnv);
      && (intended.reply.Started? ==>
            && written.reply.Raised?
            && written.store == intended.store
            && written.store[taskId].state == Submitted
            && written.session == intended.session)
      && (!intended.reply.Started? ==> written == intended)
  {
  }

  // ------------------------------------------------- response processing

  /**
   * The remote agent's answer to a send: a success carrying a Task, another
   * success, an error response, or an exception raised by the unguarded
   * `send_message` call (an HTTP error, say).
   */
  datatype SendResponse = TaskResult(remoteId: string) | OtherResult | ErrorResponse | SendRaised(exception: string)

  const FailedToSend: string := "Failed to send message"

  /**
   * What processing did: the message it sent, if any, the single store
   * operation it produced, if any, and the exception that ended it, if any.
   */
  datatype Processed = Processed(sent: Option<Dispatch>, op: Option<StoreOp>, raised: Option<string>)

  /**
   * `_send_message_and_process_response`: with no connection for the agent,
   * nothing is sent and nothing changes; otherwise the message is sent, and
   * unless the send raises (which ends the background task with no store
   * operation) the response becomes exactly one store operation on the
   * dispatch's task.
   */
  function ProcessResponse(connected: set<string>, d: Dispatch, response: SendResponse): (p: Processed)
    ensures p.sent.None? <==> d.agentName !in connected
    ensures p.sent.Some? ==> p.sent.value == d
    ensures p.raised.Some? <==> p.sent.Some? && response.SendRaised?
    ensures p.raised.Some? ==> p.raised.value == response.exception
    ensures p.op.Some? <==> p.sent.Some? && !response.SendRaised?
    ensures p.op.Some? ==> p.op.value.Target() == d.taskId
    ensures p.op.Some? ==> (p.op.value.SetRemoteTaskId? <==> response.TaskResult?)
    ensures p.op.Some? && p.op.value.SetRemoteTaskId? ==> p.op.value.remoteId == response.remoteId
    ensures p.op.Some? && p.op.value.TaskFailed? ==> p.op.value.message == FailedToSend
  {
    if d.agentName !in connected then Processed(None, None, None)
    else
      match response
      case SendRaised(e) => Processed(Some(d), None, Some(e))
      case TaskResult(rid) => Processed(Some(d), Some(SetRemoteTaskId(d.taskId, rid)), None)
      case _ => Processed(Some(d), Some(TaskFailed(d.taskId, FailedToSend)), None)
  }

  /** The store after processing a response. */
  function AfterResponse(store: Store, p: Processed): Store {
    match p.op
    case None => store
    case Some(op) => Apply(store, op)
  }

  /**
   * A dispatch whose agent is connected and answers with a Task leaves the
   * local task `working` with the remote id; an error or a non-Task answer
   * leaves it `failed`; a send that raises, or a missing connection, leaves it
   * `submitted`; no other task changes.
   */
  lemma DispatchOutcome(
    cards: Registry, agentType: string, text: string, session: SessionState, store: Store,
    taskId: string, freshContextId: string, redirectEnv: Option<string>,
    connected: set<string>, response: SendResponse)
    requires SendMessage(cards, agentType, text, session, store, taskId, freshContextId, redirectEnv).reply.Started?
    ensures var o := SendMessage(cards, agentType, text, session, store, taskId, freshContextId, redirectEnv);
      var d := o.reply.dispatch;
      var after := AfterResponse(o.store, ProcessResponse(connected, d, response));
      && taskId in after
      && (d.agentName !in connected || response.SendRaised? ==> after == o.store && after[taskId].state == Submitted)
      && (d.agentName in connected && response.TaskResult? ==>
            after[taskId].state == Working && after[taskId].remoteTaskId == Some(response.remoteId))
      && (d.agentName in connected && (response.OtherResult? || response.ErrorResponse?) ==>
            after[taskId].state == Failed && after[taskId].failure == Some(FailedToSend))
      && (forall id :: id in store && id != taskId ==> id in after && after[id] == store[id])
  {
  }

  // ------------------------------------------------------ get_task_status

  function TaskNotFound(taskId: string): string {
    "Task with ID " + taskId + " not found."
  }

  function InStatus(taskId: string, state: TaskState): string {
    "Task " + taskId + " is in status: " + state.Value() + "."
  }

  function AgentUnknown(taskId: string): string {
    "Could not determine the agent for task " + taskId + "."
  }

  function ClientUnavailable(agentName: string): string {
    "Error: Client not available for " + agentName
  }

  function RemoteUnavailable(remoteId: string): string {
    "Could not retrieve status for remote task " + remoteId + "."
  }

  /** Reading `task.request.context` when the stored request has no context. */
  const NoContextError: string := "AttributeError: 'Message' object has no attribute 'context'"

  /**
   * `get_task_status`'s result: the status message with the remote query
   * `(agent, remote id)` made to produce it, if any; or an exception escaping
   * the call.
   */
  datatype StatusReply = Status(message: string, query: Option<(string, string)>) | StatusRaised(exception: string)

  /**
   * `get_task_status`: the local state until a remote id is known; then the
   * remote state, fetched through the connection of the agent the task's
   * request context names. `getTask` stands for the remote agent's `get_task`.
   */
  function GetTaskStatus(
    store: Store, connected: set<string>, taskId: string, getTask: (string, string) -> Option<TaskState>
  ): (r: StatusReply)
    ensures taskId !in store ==> r == Status(TaskNotFound(taskId), None)
    ensures taskId in store && !Truthy(store[taskId].remoteTaskId) ==>
      r == Status(InStatus(taskId, store[taskId].state), None)
    // with a remote id, the request context is read: without one the call raises
    ensures r.StatusRaised? <==>
      taskId in store && Truthy(store[taskId].remoteTaskId) && store[taskId].requestContext.NoContext?
    ensures r.StatusRaised? ==> r.exception == NoContextError
    ensures taskId in store && Truthy(store[taskId].remoteTaskId) && store[taskId].requestContext.Context?
            && !Truthy(store[taskId].requestContext.activeAgent) ==>
      r == Status(AgentUnknown(taskId), None)
    ensures taskId in store && Truthy(store[taskId].remoteTaskId) && store[taskId].requestContext.Context?
            && Truthy(store[taskId].requestContext.activeAgent)
            && store[taskId].requestContext.activeAgent.value !in connected ==>
      r == Status(ClientUnavailable(store[taskId].requestContext.activeAgent.value), None)
    // the remote agent is asked exactly when the context names a connected agent
    ensures r.Status? && r.query.Some? <==>
      && taskId in store && Truthy(store[taskId].remoteTaskId) && store[taskId].requestContext.Context?
      && Truthy(store[taskId].requestContext.activeAgent)
      && store[taskId].requestContext.activeAgent.value in connected
    ensures r.Status? && r.query.Some? ==>
      && r.query.value == (store[taskId].requestContext.activeAgent.value, store[taskId].remoteTaskId.value)
      && (getTask(r.query.value.0, r.query.value.1).None? ==> r.message == RemoteUnavailable(r.query.value.1))
      && (getTask(r.query.value.0, r.query.value.1).Some? ==>
            r.message == InStatus(taskId, getTask(r.query.value.0, r.query.value.1).value))
  {
    match Get(store, taskId)
    case None => Status(TaskNotFound(taskId), None)
    case Some(task) =>
      if !Truthy(task.remoteTaskId) then Status(InStatus(taskId, task.state), None)
      else
        match task.requestContext
        case NoContext => StatusRaised(NoContextError)
        case Context(agentName) =>
          if !Truthy(agentName) then Status(AgentUnknown(taskId), None)
          else
            var agent := agentName.value;
            var rid := task.remoteTaskId.value;
            if agent !in connected then Status(ClientUnavailable(agent), None)
            else
              match getTask(agent, rid)
              case None => Status(RemoteUnavailable(rid), Some((agent, rid)))
              case Some(state) => Status(InStatus(taskId, state), Some((agent, rid)))
  }

  /**
   * A task saved by `send_message` is reported in its local state until a
   * remote id arrives, `failed` after a failed send; once a remote id
   * arrives, the saved request has no context, so reading it raises and no
   * remote query is made.
   */
  lemma StatusAfterSendMessage(
    cards: Registry, agentType: string, text: string, session: SessionState, store: Store,
    taskId: string, freshContextId: string, redirectEnv: Option<string>,
    connected: set<string>, response: SendResponse, getTask: (string, string) -> Option<TaskState>)
    requires SendMessage(cards, agentType, text, session, store, taskId, freshContextId, redirectEnv).reply.Started?
    ensures var o := SendMessage(cards, agentType, text, session, store, taskId, freshContextId, redirectEnv);
      GetTaskStatus(o.store, connected, taskId, getTask) == Status(InStatus(taskId, Submitted), None)
    ensures var o := SendMessage(cards, agentType, text, session, store, taskId, freshContextId, redirectEnv);
      var after := AfterResponse(o.store, ProcessResponse(connected, o.reply.dispatch, response));
      && (response.TaskResult? && response.remoteId != "" && o.reply.dispatch.agentName in connected ==>
            GetTaskStatus(after, connected, taskId, getTask) == StatusRaised(NoContextError))
      && ((response.OtherResult? || response.ErrorResponse?) && o.reply.dispatch.agentName in connected ==>
            GetTaskStatus(after, connected, taskId, getTask) == Status(InStatus(taskId, Failed), None))
  {
    var o := SendMessage(cards, agentType, text, session, store, taskId, freshContextId, redirectEnv);
    assert o.store[taskId] == NewTask(taskId, ContextFor(session, freshContextId), text);
    StatusOfFreshTask(o.store, taskId, connected, o.reply.dispatch, response, getTask);
  }

  /** The status of a fresh task whose request has no context, before and after its dispatch is processed. */
  lemma StatusOfFreshTask(
    st: Store, taskId: string, connected: set<string>, d: Dispatch, response: SendResponse,
    getTask: (string, string) -> Option<TaskState>)
    requires taskId in st && d.taskId == taskId
    requires st[taskId].state == Submitted && st[taskId].remoteTaskId.None? && st[taskId].requestContext.NoContext?
    ensures GetTaskStatus(st, connected, taskId, getTask) == Status(InStatus(taskId, Submitted), None)
    ensures var after := AfterResponse(st, ProcessResponse(connected, d, response));
      && (response.TaskResult? && response.remoteId != "" && d.agentName in connected ==>
            GetTaskStatus(after, connected, taskId, getTask) == StatusRaised(NoContextError))
      && ((response.OtherResult? || response.ErrorResponse?) && d.agentName in connected ==>
            GetTaskStatus(after, connected, taskId, getTask) == Status(InStatus(taskId, Failed), None))
  {
  }

  // ------------------------------------------------ list_available_agents

  const NoAgentsAvailable: string := "There are no agents available at the moment."
  const AgentsHeader: string := "I can connect you to the following agents:\n"

  function AgentLine(card: AgentCard): string {
    "- **" + card.name + ":** " + card.description + "\n"
  }

  function AgentLines(cards: Registry): string {
    if |cards| == 0 then "" else AgentLine(cards[0]) + AgentLines(cards[1..])
  }

  /** `list_available_agents`: the fixed message for an empty registry, else one line per card. */
  function ListAvailableAgents(cards: Registry): (s: string)
    ensures |cards| == 0 <==> s == NoAgentsAvailable
    ensures |cards| > 0 ==> StartsWith(s, AgentsHeader)
  {
    if |cards| == 0 then NoAgentsAvailable
    else
      assert (AgentsHeader + AgentLines(cards))[..|AgentsHeader|] == AgentsHeader;
      assert (AgentsHeader + AgentLines(cards))[0] != NoAgentsAvailable[0];
      AgentsHeader + AgentLines(cards)
  }

  /** The listing of a registry is the listing of any split of it, concatenated. */
  lemma {:induction false} AgentLinesAppend(a: Registry, b: Registry)
    ensures AgentLines(a + b) == AgentLines(a) + AgentLines(b)
  {
    if |a| == 0 {
      assert a + b == b;
    } else {
      assert (a + b)[1..] == a[1..] + b;
      AgentLinesAppend(a[1..], b);
    }
  }

  /** Every registered card has its own line in the listing. */
  lemma ListMentionsEveryAgent(cards: Registry, i: int)
    requires 0 <= i < |cards|
    ensures Mentions(ListAvailableAgents(cards), AgentLine(cards[i]))
  {
    var before, after := cards[..i], cards[i + 1..];
    AgentLinesAround(cards, i);
    var pre := AgentsHeader + AgentLines(before);
    var post := AgentLines(after);
    assert ListAvailableAgents(cards) == AgentsHeader + AgentLines(cards);
    assert AgentsHeader + (AgentLines(before) + AgentLine(cards[i]) + post) == pre + AgentLine(cards[i]) + post;
    MentionsInside(pre, AgentLine(cards[i]), post);
  }

  /** The listing of a registry is the lines before a card, the card's line, and the lines after it. */
  lemma {:induction false} AgentLinesAround(cards: Registry, i: int)
    requires 0 <= i < |cards|
    ensures AgentLines(cards) == AgentLines(cards[..i]) + AgentLine(cards[i]) + AgentLines(cards[i + 1..])
    decreases i
  {
    var head, tail := AgentLine(cards[0]), cards[1..];
    assert AgentLines(cards) == head + AgentLines(tail);
    if i == 0 {
      assert AgentLines(cards[..0]) == "";
      assert cards[1..] == cards[i + 1..];
    } else {
      AgentLinesAround(tail, i - 1);
      assert tail[..i - 1] == cards[..i][1..] && tail[i..] == cards[i + 1..] && tail[i - 1] == cards[i];
      assert AgentLines(cards[..i]) == head + AgentLines(cards[..i][1..]);
    }
  }
}
