/** The helpers of `AgentsManager` and `TasksManager` (`managers.py`): query and payload
    builders, the dict-to-record conversions, the capability test and the polling decision of
    `wait_for_completion`, with each `client.request` replaced by the value it returned. */
module Managers {
  import opened Values
  import opened Text
  import opened Errors

  // ---------------------------------------------------------------------------------------
  // Records (`types.py`)

  /** `Agent`; every field holds whatever the response carried. */
  datatype Agent = Agent(id: Json, name: Json, agentType: Json, status: Json, capabilities: Json,
                         createdAt: Json, updatedAt: Json)

  /** `Task`. */
  datatype Task = Task(id: Json, name: Json, taskType: Json, status: Json, priority: Json, payload: Json,
                       createdAt: Json, updatedAt: Json, result: Json, error: Json, assignedAgentId: Json)

  /** `AgentCreateParams`; `metadata` defaults to None. */
  datatype AgentCreateParams = AgentCreateParams(name: Json, agentType: Json, capabilities: Json, metadata: Json)

  /** `TaskSubmitParams`; `priority` defaults to "NORMAL", the other optional fields to None. */
  datatype TaskSubmitParams = TaskSubmitParams(name: Json, taskType: Json, payload: Json, description: Json,
                                               priority: Json, config: Json, metadata: Json)

  /** The `TaskStatus` literals. */
  datatype TaskStatus = Pending | Queued | Assigned | InProgress | Completed | Failed | Cancelled | TimedOut | Paused | Retrying

  function StatusName(s: TaskStatus): string {
    match s
    case Pending => "PENDING"
    case Queued => "QUEUED"
    case Assigned => "ASSIGNED"
    case InProgress => "IN_PROGRESS"
    case Completed => "COMPLETED"
    case Failed => "FAILED"
    case Cancelled => "CANCELLED"
    case TimedOut => "TIMED_OUT"
    case Paused => "PAUSED"
    case Retrying => "RETRYING"
  }

  function ParseStatus(name: string): Option<TaskStatus> {
    if name == "PENDING" then Some(Pending)
    else if name == "QUEUED" then Some(Queued)
    else if name == "ASSIGNED" then Some(Assigned)
    else if name == "IN_PROGRESS" then Some(InProgress)
    else if name == "COMPLETED" then Some(Completed)
    else if name == "FAILED" then Some(Failed)
    else if name == "CANCELLED" then Some(Cancelled)
    else if name == "TIMED_OUT" then Some(TimedOut)
    else if name == "PAUSED" then Some(Paused)
    else if name == "RETRYING" then Some(Retrying)
    else None
  }

  /** Every status literal reads back as itself, so the names are pairwise distinct. */
  lemma StatusNamesRoundTrip(s: TaskStatus)
    ensures ParseStatus(StatusName(s)) == Some(s)
  {
  }

  // ---------------------------------------------------------------------------------------
  // Query strings (`list`)

  /** `f"{key}={value}"`. */
  function Param(key: string, value: string): string {
    key + "=" + value
  }

  /** The query `AgentsManager.list` sends, written out. */
  function AgentsQuery(page: int, limit: int, agentType: Option<string>, status: Option<string>): string {
    Param("page", IntToString(page)) + "&" + Param("limit", IntToString(limit))
    + (if Given(agentType) then "&" + Param("type", agentType.value) else "")
    + (if Given(status) then "&" + Param("status", status.value) else "")
  }

  /** The query `TasksManager.list` sends, written out. */
  function TasksQuery(page: int, limit: int, status: Option<string>, agentId: Option<string>): string {
    Param("page", IntToString(page)) + "&" + Param("limit", IntToString(limit))
    + (if Given(status) then "&" + Param("status", status.value) else "")
    + (if Given(agentId) then "&" + Param("agentId", agentId.value) else "")
  }

  /** The parameter list of a `list` call: page and limit, then each optional filter that was
      given, in order. */
  function ListParams(page: int, limit: int, first: (string, Option<string>), second: (string, Option<string>)): seq<string> {
    [Param("page", IntToString(page)), Param("limit", IntToString(limit))]
    + (if Given(first.1) then [Param(first.0, first.1.value)] else [])
    + (if Given(second.1) then [Param(second.0, second.1.value)] else [])
  }

  /** Builds `params` by appending and joins it with "&", as `list` does. */
  method BuildQuery(page: int, limit: int, first: (string, Option<string>), second: (string, Option<string>))
    returns (query: string)
    ensures query == Param("page", IntToString(page)) + "&" + Param("limit", IntToString(limit))
                     + (if Given(first.1) then "&" + Param(first.0, first.1.value) else "")
                     + (if Given(second.1) then "&" + Param(second.0, second.1.value) else "")
  {
    var params := [Param("page", IntToString(page)), Param("limit", IntToString(limit))];
    assert Join(params, "&") == Param("page", IntToString(page)) + "&" + Param("limit", IntToString(limit)) by {
      assert params[1..] == [Param("limit", IntToString(limit))];
    }
    var joined := Join(params, "&");
    if Given(first.1) {
      JoinAppend(params, Param(first.0, first.1.value), "&");
      params := params + [Param(first.0, first.1.value)];
      joined := joined + "&" + Param(first.0, first.1.value);
    }
    if Given(second.1) {
      JoinAppend(params, Param(second.0, second.1.value), "&");
      params := params + [Param(second.0, second.1.value)];
      joined := joined + "&" + Param(second.0, second.1.value);
    }
    assert joined == Join(params, "&");
    query := Join(params, "&");
  }

  /** `AgentsManager.list`: the path it requests. */
  method ListAgentsPath(page: int, limit: int, agentType: Option<string>, status: Option<string>) returns (path: string)
    ensures path == "/agents?" + AgentsQuery(page, limit, agentType, status)
  {
    var query := BuildQuery(page, limit, ("type", agentType), ("status", status));
    path := "/agents?" + query;
  }

  /** `TasksManager.list`: the path it requests. */
  method ListTasksPath(page: int, limit: int, status: Option<string>, agentId: Option<string>) returns (path: string)
    ensures path == "/tasks?" + TasksQuery(page, limit, status, agentId)
  {
    var query := BuildQuery(page, limit, ("status", status), ("agentId", agentId));
    path := "/tasks?" + query;
  }

  /** The written-out query is the "&"-join of the parameter list. */
  lemma {:induction false} QueryIsJoin(page: int, limit: int, first: (string, Option<string>), second: (string, Option<string>))
    ensures Join(ListParams(page, limit, first, second), "&")
         == Param("page", IntToString(page)) + "&" + Param("limit", IntToString(limit))
            + (if Given(first.1) then "&" + Param(first.0, first.1.value) else "")
            + (if Given(second.1) then "&" + Param(second.0, second.1.value) else "")
  {
    var base := [Param("page", IntToString(page)), Param("limit", IntToString(limit))];
    assert base[1..] == [Param("limit", IntToString(limit))];
    var withFirst := base + (if Given(first.1) then [Param(first.0, first.1.value)] else []);
    if Given(first.1) {
      JoinAppend(base, Param(first.0, first.1.value), "&");
    } else {
      assert withFirst == base;
    }
    if Given(second.1) {
      JoinAppend(withFirst, Param(second.0, second.1.value), "&");
    } else {
      assert ListParams(page, limit, first, second) == withFirst;
    }
  }

  /** No '&' inside any parameter of the list. */
  lemma ParamsFreeOfAmpersand(page: int, limit: int, first: (string, Option<string>), second: (string, Option<string>))
    requires '&' !in first.0 && '&' !in second.0
    requires Given(first.1) ==> '&' !in first.1.value
    requires Given(second.1) ==> '&' !in second.1.value
    ensures forall i :: 0 <= i < |ListParams(page, limit, first, second)| ==> '&' !in ListParams(page, limit, first, second)[i]
  {
    IntToStringChars(page);
    IntToStringChars(limit);
  }

  /** Splitting an agents query on "&" gives back page, limit and then each filter that was
      given, in that order, as long as no filter value contains "&" (values are not
      percent-encoded). */
  lemma AgentsQueryParses(page: int, limit: int, agentType: Option<string>, status: Option<string>)
    requires Given(agentType) ==> '&' !in agentType.value
    requires Given(status) ==> '&' !in status.value
    ensures Split(AgentsQuery(page, limit, agentType, status), '&')
         == ["page=" + IntToString(page), "limit=" + IntToString(limit)]
            + (if Given(agentType) then ["type=" + agentType.value] else [])
            + (if Given(status) then ["status=" + status.value] else [])
  {
    var ps := ListParams(page, limit, ("type", agentType), ("status", status));
    QueryIsJoin(page, limit, ("type", agentType), ("status", status));
    assert AgentsQuery(page, limit, agentType, status) == Join(ps, "&");
    ParamsFreeOfAmpersand(page, limit, ("type", agentType), ("status", status));
    SplitJoin(ps, '&');
    assert "page" + "=" == "page=" && "limit" + "=" == "limit=";
    assert "type" + "=" == "type=" && "status" + "=" == "status=";
  }

  /** The same for a tasks query: page, limit, then status, then agentId. */
  lemma TasksQueryParses(page: int, limit: int, status: Option<string>, agentId: Option<string>)
    requires Given(status) ==> '&' !in status.value
    requires Given(agentId) ==> '&' !in agentId.value
    ensures Split(TasksQuery(page, limit, status, agentId), '&')
         == ["page=" + IntToString(page), "limit=" + IntToString(limit)]
            + (if Given(status) then ["status=" + status.value] else [])
            + (if Given(agentId) then ["agentId=" + agentId.value] else [])
  {
    var ps := ListParams(page, limit, ("status", status), ("agentId", agentId));
    QueryIsJoin(page, limit, ("status", status), ("agentId", agentId));
    assert TasksQuery(page, limit, status, agentId) == Join(ps, "&");
    ParamsFreeOfAmpersand(page, limit, ("status", status), ("agentId", agentId));
    SplitJoin(ps, '&');
    assert "page" + "=" == "page=" && "limit" + "=" == "limit=";
    assert "status" + "=" == "status=" && "agentId" + "=" == "agentId=";
  }

  // ---------------------------------------------------------------------------------------
  // Payloads (`create`, `submit`, `cancel`)

  /** `**({key: value} if value else {})`. */
  function IfTruthy(key: string, value: Json): map<string, Json> {
    if Truthy(value) then map[key := value] else map[]
  }

  /** The body `create` posts: name, type and capabilities always, metadata only when truthy. */
  function CreatePayload(p: AgentCreateParams): (d: map<string, Json>)
    ensures d.Keys == {"name", "type", "capabilities"} + (if Truthy(p.metadata) then {"metadata"} else {})
    ensures d["name"] == p.name && d["type"] == p.agentType && d["capabilities"] == p.capabilities
    ensures "metadata" in d ==> d["metadata"] == p.metadata
  {
    map["name" := p.name, "type" := p.agentType, "capabilities" := p.capabilities] + IfTruthy("metadata", p.metadata)
  }

  /** The body `submit` posts: name, type and payload always; description, priority, config and
      metadata each only when truthy. */
  function SubmitPayload(p: TaskSubmitParams): (d: map<string, Json>)
    ensures "name" in d && "type" in d && "payload" in d
    ensures ("description" in d <==> Truthy(p.description)) && ("priority" in d <==> Truthy(p.priority))
    ensures ("config" in d <==> Truthy(p.config)) && ("metadata" in d <==> Truthy(p.metadata))
    ensures d.Keys <= {"name", "type", "payload", "description", "priority", "config", "metadata"}
    ensures d["name"] == p.name && d["type"] == p.taskType && d["payload"] == p.payload
    ensures "description" in d ==> d["description"] == p.description
    ensures "priority" in d ==> d["priority"] == p.priority
    ensures "config" in d ==> d["config"] == p.config
    ensures "metadata" in d ==> d["metadata"] == p.metadata
  {
    map["name" := p.name, "type" := p.taskType, "payload" := p.payload]
    + IfTruthy("description", p.description) + IfTruthy("priority", p.priority)
    + IfTruthy("config", p.config) + IfTruthy("metadata", p.metadata)
  }

  /** With the dataclass defaults (no description, config or metadata, priority "NORMAL") the
      submit body has exactly the three required keys and the priority. */
  lemma SubmitDefaults(name: Json, taskType: Json, payload: Json)
    ensures SubmitPayload(TaskSubmitParams(name, taskType, payload, JNull, JStr("NORMAL"), JNull, JNull)).Keys
         == {"name", "type", "payload", "priority"}
  {
  }

  const DefaultCancelReason := "Cancelled by client"

  /** The body `cancel` posts: the reason, or the default one when none is given. */
  function CancelPayload(reason: Option<string>): (d: map<string, Json>)
    ensures d.Keys == {"reason"}
    ensures Given(reason) ==> d["reason"] == JStr(reason.value)
    ensures !Given(reason) ==> d["reason"] == JStr(DefaultCancelReason)
  {
    map["reason" := JStr(if Given(reason) then reason.value else DefaultCancelReason)]
  }

  // ---------------------------------------------------------------------------------------
  // Conversions (`_to_agent`, `_to_task`)

  const AgentKeys := ["id", "name", "type", "status", "capabilities", "createdAt", "updatedAt"]
  /** The keys `_to_task` subscripts, in the order it evaluates them. */
  const TaskKeys := ["id", "name", "type", "status", "payload", "createdAt", "updatedAt"]

  /** The first of `keys` that the dict lacks, if any. */
  function FirstMissing(d: map<string, Json>, keys: seq<string>): (r: Option<string>)
    ensures r.None? <==> forall i :: 0 <= i < |keys| ==> keys[i] in d
    ensures r.Some? ==> exists k :: 0 <= k < |keys| && keys[k] == r.value && r.value !in d
                                    && forall i :: 0 <= i < k ==> keys[i] in d
  {
    if |keys| == 0 then None
    else if keys[0] !in d then Some(keys[0])
    else
      var rest := FirstMissing(d, keys[1..]);
      assert rest.Some? ==> exists k :: 0 <= k < |keys[1..]| && keys[1..][k] == rest.value && rest.value !in d
                                        && forall i :: 0 <= i < k ==> keys[1..][i] in d;
      if rest.Some? then
        var k :| 0 <= k < |keys[1..]| && keys[1..][k] == rest.value && rest.value !in d
                 && forall i :: 0 <= i < k ==> keys[1..][i] in d;
        assert keys[k + 1] == rest.value && forall i :: 0 <= i < k + 1 ==> keys[i] in d;
        rest
      else rest
  }

  /** `_to_agent(data)`: subscripting something other than a dict is a TypeError, a missing
      key a KeyError for the first one missing. */
  function ToAgent(data: Json): Outcome<Agent> {
    if !data.JObj? then Err(TypeError)
    else
      var d := data.fields;
      match FirstMissing(d, AgentKeys)
      case Some(k) => Err(KeyError(k))
      case None =>
        assert AgentKeys[0] in d && AgentKeys[1] in d && AgentKeys[2] in d && AgentKeys[3] in d;
        assert AgentKeys[4] in d && AgentKeys[5] in d && AgentKeys[6] in d;
        Ok(Agent(d["id"], d["name"], d["type"], d["status"], d["capabilities"], d["createdAt"], d["updatedAt"]))
  }

  /** `_to_task(data)`: the same required-key rule; priority defaults to "NORMAL" and result,
      error and assignedAgentId to None. */
  function ToTask(data: Json): Outcome<Task> {
    if !data.JObj? then Err(TypeError)
    else
      var d := data.fields;
      match FirstMissing(d, TaskKeys)
      case Some(k) => Err(KeyError(k))
      case None =>
        assert TaskKeys[0] in d && TaskKeys[1] in d && TaskKeys[2] in d && TaskKeys[3] in d;
        assert TaskKeys[4] in d && TaskKeys[5] in d && TaskKeys[6] in d;
        Ok(Task(d["id"], d["name"], d["type"], d["status"], Get(d, "priority", JStr("NORMAL")), d["payload"],
                d["createdAt"], d["updatedAt"], Get(d, "result", JNull), Get(d, "error", JNull),
                Get(d, "assignedAgentId", JNull)))
  }

  /** The server's JSON form of an agent. */
  function AgentJson(a: Agent): Json {
    JObj(map["id" := a.id, "name" := a.name, "type" := a.agentType, "status" := a.status,
             "capabilities" := a.capabilities, "createdAt" := a.createdAt, "updatedAt" := a.updatedAt])
  }

  /** The server's JSON form of a task, with every optional key present. */
  function TaskJson(t: Task): Json {
    JObj(map["id" := t.id, "name" := t.name, "type" := t.taskType, "status" := t.status,
             "priority" := t.priority, "payload" := t.payload, "createdAt" := t.createdAt,
             "updatedAt" := t.updatedAt, "result" := t.result, "error" := t.error,
             "assignedAgentId" := t.assignedAgentId])
  }

  /** Converting loses nothing: an agent read from its JSON form is the same agent. */
  lemma AgentRoundTrip(a: Agent)
    ensures ToAgent(AgentJson(a)) == Ok(a)
  {
    var d := AgentJson(a).fields;
    assert forall i :: 0 <= i < |AgentKeys| ==> AgentKeys[i] in d;
  }

  /** A successful conversion came from a dict holding every required key, and writing the
      agent back out reproduces those keys' values. */
  lemma AgentFromKeys(data: Json)
    requires ToAgent(data).Ok?
    ensures data.JObj?
    ensures forall i :: 0 <= i < |AgentKeys| ==>
      (AgentKeys[i] in data.fields && data.fields[AgentKeys[i]] == AgentJson(ToAgent(data).value).fields[AgentKeys[i]])
  {
  }

  /** The same for tasks, whose JSON form carries every optional key. */
  lemma TaskRoundTrip(t: Task)
    ensures ToTask(TaskJson(t)) == Ok(t)
  {
    var d := TaskJson(t).fields;
    assert forall i :: 0 <= i < |TaskKeys| ==> TaskKeys[i] in d;
  }

  /** A task dict with only the required keys gets the defaults. */
  lemma TaskDefaults(data: Json)
    requires data.JObj? && data.fields.Keys == set i | 0 <= i < |TaskKeys| :: TaskKeys[i]
    ensures ToTask(data).Ok?
    ensures ToTask(data).value.priority == JStr("NORMAL")
    ensures ToTask(data).value.result == JNull && ToTask(data).value.error == JNull
    ensures ToTask(data).value.assignedAgentId == JNull
  {
    assert forall i :: 0 <= i < |TaskKeys| ==> TaskKeys[i] in data.fields;
    assert "priority" !in data.fields && "result" !in data.fields;
    assert "error" !in data.fields && "assignedAgentId" !in data.fields;
  }

  /** Conversion fails exactly on a non-dict (TypeError) or a dict lacking a required key, and
      then names the first key missing in evaluation order. */
  lemma ToTaskFails(data: Json)
    ensures ToTask(data).Ok? <==> data.JObj? && forall i :: 0 <= i < |TaskKeys| ==> TaskKeys[i] in data.fields
    ensures !data.JObj? ==> ToTask(data) == Err(TypeError)
    ensures data.JObj? && ToTask(data).Err? ==>
      exists k :: 0 <= k < |TaskKeys| && ToTask(data) == Err(KeyError(TaskKeys[k])) && TaskKeys[k] !in data.fields
                  && forall i :: 0 <= i < k ==> TaskKeys[i] in data.fields
  {
  }

  // ---------------------------------------------------------------------------------------
  // Capabilities (`get_capabilities`, `has_capability`)

  /** `capability in agent.capabilities` for whatever the capabilities value is: membership in a
      list, a substring of a string, a key of a dict, and a TypeError for anything else. */
  function CapabilityIn(capabilities: Json, capability: string): Outcome<bool> {
    match capabilities
    case JArr(items) => Ok(JStr(capability) in items)
    case JStr(s) => Ok(Contains(s, capability))
    case JObj(f) => Ok(capability in f)
    case _ => Err(TypeError)
  }

  /** `has_capability`, given what `get`'s request returned: the fetch or the conversion can
      fail; otherwise the capability test decides. */
  function HasCapability(fetched: Outcome<Json>, capability: string): (r: Outcome<bool>)
    ensures fetched.Err? ==> r == Err(fetched.fault)
    ensures fetched.Ok? && ToAgent(fetched.value).Err? ==> r == Err(ToAgent(fetched.value).fault)
  {
    if fetched.Err? then Err(fetched.fault)
    else match ToAgent(fetched.value)
      case Err(f) => Err(f)
      case Ok(agent) => CapabilityIn(agent.capabilities, capability)
  }

  /** For any response that converts to an agent whose capabilities are a list, whatever other
      keys it carries, the test is list membership of the capability's string. */
  lemma CapabilityIsMembership(data: Json, a: Agent, capability: string)
    requires ToAgent(data) == Ok(a) && a.capabilities.JArr?
    ensures HasCapability(Ok(data), capability) == Ok(JStr(capability) in a.capabilities.items)
  {
  }

  /** In particular for an agent's own dict: true exactly when some element is the capability. */
  lemma CapabilityOfOwnDict(a: Agent, capability: string)
    requires a.capabilities.JArr?
    ensures HasCapability(Ok(AgentJson(a)), capability)
         == Ok(exists i :: 0 <= i < |a.capabilities.items| && a.capabilities.items[i] == JStr(capability))
  {
    AgentRoundTrip(a);
    CapabilityIsMembership(AgentJson(a), a, capability);
  }

  // ---------------------------------------------------------------------------------------
  // `wait_for_completion`

  /** `self.max_poll_wait`, in seconds. */
  const MaxPollWait := 3600
  /** `self.poll_interval`, in seconds. */
  const PollInterval := 1

  /** The statuses that end the wait. */
  predicate IsTerminalStatus(status: Json) {
    status in [JStr("COMPLETED"), JStr("FAILED"), JStr("CANCELLED"), JStr("TIMED_OUT")]
  }

  /** Of the ten status literals exactly four end the wait; a status that is not one of the
      literals never does. */
  lemma TerminalStatuses(s: TaskStatus, status: Json)
    ensures IsTerminalStatus(JStr(StatusName(s))) <==> s in {Completed, Failed, Cancelled, TimedOut}
    ensures IsTerminalStatus(status) ==> status.JStr? && ParseStatus(status.s).Some?
  {
  }

  /** `timeout or self.max_poll_wait`. */
  function EffectiveTimeout(timeout: Option<int>): (t: int)
    ensures timeout.None? || timeout == Some(0) ==> t == MaxPollWait
    ensures timeout.Some? && timeout.value != 0 ==> t == timeout.value
  {
    if timeout.Some? && timeout.value != 0 then timeout.value else MaxPollWait
  }

  /** What one iteration observes: the outcome of `self.get(task_id)` and the elapsed time read
      after it. */
  datatype Poll = Poll(task: Outcome<Task>, elapsed: real)

  datatype WaitResult =
    | Done(task: Task)      // returned
    | Aborted(fault: Fault) // raised
    | StillRunning          // the observations ran out before the loop ended

  /** The error raised at the deadline. */
  function WaitTimeout(taskId: string, timeout: int): (e: AgentError)
    ensures e.Code() == JStr("TIMEOUT") && e.StatusCode() == Some(408)
    ensures e.TimeoutError? && e.timeout == Some(timeout * 1000)
  {
    TimeoutError(JStr("Task " + taskId + " did not complete within " + IntToString(timeout) + "s"), Some(timeout * 1000))
  }

  /** Whether the iteration that observes `p` leaves the loop. */
  predicate Decides(p: Poll, timeout: int) {
    p.task.Err? || IsTerminalStatus(p.task.value.status) || p.elapsed > timeout as real
  }

  /** How a deciding iteration leaves the loop. */
  function Verdict(taskId: string, timeout: int, p: Poll): WaitResult
    requires Decides(p, timeout)
  {
    if p.task.Err? then Aborted(p.task.fault)
    else if IsTerminalStatus(p.task.value.status) then Done(p.task.value)
    else Aborted(SdkError(WaitTimeout(taskId, timeout)))
  }

  /** The result of the loop over the observations. */
  function Waited(taskId: string, timeout: int, polls: seq<Poll>): WaitResult
    decreases |polls|
  {
    if |polls| == 0 then StillRunning
    else if Decides(polls[0], timeout) then Verdict(taskId, timeout, polls[0])
    else Waited(taskId, timeout, polls[1..])
  }

  /** The number of `get` calls the loop makes. */
  function PollsUsed(timeout: int, polls: seq<Poll>): nat
    decreases |polls|
  {
    if |polls| == 0 then 0
    else if Decides(polls[0], timeout) then 1
    else 1 + PollsUsed(timeout, polls[1..])
  }

  /** No observation before index `k` decides. */
  predicate UndecidedBefore(timeout: int, polls: seq<Poll>, k: int)
    requires k <= |polls|
  {
    forall j :: 0 <= j < k ==> !Decides(polls[j], timeout)
  }

  /** `wait_for_completion(task_id, timeout)` where iteration i observes `polls[i]`: it returns
      or raises at the first deciding observation, after one `get` per iteration and one sleep
      of `PollInterval` between iterations. */
  method WaitForCompletion(taskId: string, timeout: Option<int>, polls: seq<Poll>)
    returns (r: WaitResult, gets: nat, sleeps: seq<int>)
    ensures r == Waited(taskId, EffectiveTimeout(timeout), polls)
    ensures gets == PollsUsed(EffectiveTimeout(timeout), polls)
    ensures |sleeps| == if r.StillRunning? then gets else gets - 1
    ensures forall i :: 0 <= i < |sleeps| ==> sleeps[i] == PollInterval
  {
    var eff := EffectiveTimeout(timeout);
    var i := 0;
    sleeps := [];
    while i < |polls|
      invariant 0 <= i <= |polls|
      invariant |sleeps| == i
      invariant forall j :: 0 <= j < i ==> sleeps[j] == PollInterval
      invariant Waited(taskId, eff, polls) == Waited(taskId, eff, polls[i..])
      invariant PollsUsed(eff, polls) == i + PollsUsed(eff, polls[i..])
    {
      assert polls[i..][0] == polls[i] && polls[i..][1..] == polls[i + 1..];
      var task := polls[i].task;
      if task.Err? {
        return Aborted(task.fault), i + 1, sleeps;
      }
      if IsTerminalStatus(task.value.status) {
        return Done(task.value), i + 1, sleeps;
      }
      if polls[i].elapsed > eff as real {
        return Aborted(SdkError(WaitTimeout(taskId, eff))), i + 1, sleeps;
      }
      sleeps := sleeps + [PollInterval];
      i := i + 1;
    }
    assert polls[i..] == [];
    r, gets := StillRunning, i;
  }

  /** The loop leaves at the first deciding observation, with that observation's verdict, after
      exactly that many `get` calls. */
  lemma {:induction false} WaitedAt(taskId: string, timeout: int, polls: seq<Poll>, k: nat)
    requires k < |polls| && Decides(polls[k], timeout) && UndecidedBefore(timeout, polls, k)
    ensures Waited(taskId, timeout, polls) == Verdict(taskId, timeout, polls[k])
    ensures PollsUsed(timeout, polls) == k + 1
    decreases k
  {
    if k > 0 {
      assert !Decides(polls[0], timeout);
      assert polls[1..][k - 1] == polls[k];
      WaitedAt(taskId, timeout, polls[1..], k - 1);
    }
  }

  /** When no observation decides, the loop is still running after using all of them. */
  lemma {:induction false} WaitedNone(taskId: string, timeout: int, polls: seq<Poll>)
    requires UndecidedBefore(timeout, polls, |polls|)
    ensures Waited(taskId, timeout, polls) == StillRunning
    ensures PollsUsed(timeout, polls) == |polls|
    decreases |polls|
  {
    if |polls| > 0 {
      assert !Decides(polls[0], timeout);
      WaitedNone(taskId, timeout, polls[1..]);
    }
  }

  /** A loop that ended did so at a first deciding observation. */
  lemma {:induction false} WaitedDecided(taskId: string, timeout: int, polls: seq<Poll>)
    requires !Waited(taskId, timeout, polls).StillRunning?
    ensures exists k :: 0 <= k < |polls| && Decides(polls[k], timeout) && UndecidedBefore(timeout, polls, k)
                        && Waited(taskId, timeout, polls) == Verdict(taskId, timeout, polls[k])
    decreases |polls|
  {
    if Decides(polls[0], timeout) {
      assert UndecidedBefore(timeout, polls, 0);
    } else {
      WaitedDecided(taskId, timeout, polls[1..]);
      var k :| 0 <= k < |polls[1..]| && Decides(polls[1..][k], timeout) && UndecidedBefore(timeout, polls[1..], k)
               && Waited(taskId, timeout, polls[1..]) == Verdict(taskId, timeout, polls[1..][k]);
      assert polls[1..][k] == polls[k + 1];
      assert UndecidedBefore(timeout, polls, k + 1);
    }
  }

  /** The loop returns `t` exactly when `t` is the first observed task with a terminal status
      and no earlier iteration failed or passed the deadline. */
  lemma ReturnsFirstTerminal(taskId: string, timeout: int, polls: seq<Poll>, t: Task)
    ensures Waited(taskId, timeout, polls) == Done(t) <==>
      exists k :: 0 <= k < |polls| && polls[k].task == Ok(t) && IsTerminalStatus(t.status)
                  && UndecidedBefore(timeout, polls, k)
  {
    if Waited(taskId, timeout, polls) == Done(t) {
      WaitedDecided(taskId, timeout, polls);
    }
    if exists k :: 0 <= k < |polls| && polls[k].task == Ok(t) && IsTerminalStatus(t.status)
                   && UndecidedBefore(timeout, polls, k) {
      var k :| 0 <= k < |polls| && polls[k].task == Ok(t) && IsTerminalStatus(t.status)
               && UndecidedBefore(timeout, polls, k);
      WaitedAt(taskId, timeout, polls, k);
    }
  }

  /** The loop raises only because a `get` raised, or because a non-terminal task was observed
      with the elapsed time strictly past the effective timeout; the deadline error carries the
      timeout in milliseconds. */
  lemma RaisesOnlyOnFailureOrDeadline(taskId: string, timeout: int, polls: seq<Poll>, f: Fault)
    requires Waited(taskId, timeout, polls) == Aborted(f)
    ensures exists k :: (0 <= k < |polls| && UndecidedBefore(timeout, polls, k)
                         && (polls[k].task == Err(f)
                             || (polls[k].task.Ok? && !IsTerminalStatus(polls[k].task.value.status)
                                 && polls[k].elapsed > timeout as real && f == SdkError(WaitTimeout(taskId, timeout)))))
  {
    WaitedDecided(taskId, timeout, polls);
  }

  /** The deadline is strict: a non-terminal task observed exactly at the timeout keeps the loop
      going. */
  lemma DeadlineIsStrict(t: Task, timeout: int)
    requires !IsTerminalStatus(t.status)
    ensures !Decides(Poll(Ok(t), timeout as real), timeout)
    ensures Decides(Poll(Ok(t), timeout as real + 0.5), timeout)
  {
  }
}
