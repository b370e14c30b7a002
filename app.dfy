/**
 * The HTTP handlers of backend/app.py that drive incidents: signal creation,
 * starting and stepping an OODA process, and reading and resolving
 * human-in-the-loop (HIL) requests. A handler either returns its JSON payload
 * as a value or fails with the status code that `abort` would send.
 * Stage outputs always come from the fixed fallback texts; the Gemini path is
 * not part of this model.
 */
module App {
  import opened Outcomes
  import opened Ooda
  import opened Text
  import opened Database
  import opened Messages

  datatype ApiError = BadRequest(message: string) | NotFound(message: string) | ServerError(message: string)

  // ---------------------------------------------------------------- create_signal

  const RequiredSignalFields: seq<string> := ["type", "severity", "source"]

  const ValidSeverities: seq<string> := ["CRITICAL", "ERROR", "WARN", "INFO", "SYSTEM"]

  function MissingFieldMessage(field: string): string {
    "Field '" + field + "' is required"
  }

  /** The first of `fields`, in order, that the body lacks; None when it has them all. */
  method FirstMissingField(fields: seq<string>, body: map<string, string>) returns (missing: Option<nat>)
    ensures missing.Some? ==> missing.value < |fields| && fields[missing.value] !in body
    ensures missing.Some? ==> forall j :: 0 <= j < missing.value ==> fields[j] in body
    ensures missing.None? <==> forall f :: f in fields ==> f in body
  {
    var i := 0;
    while i < |fields|
      invariant 0 <= i <= |fields|
      invariant forall j :: 0 <= j < i ==> fields[j] in body
    {
      if fields[i] !in body {
        return Some(i);
      }
      i := i + 1;
    }
    return None;
  }

  function Lookup(body: map<string, string>, key: string): Option<string> {
    if key in body then Some(body[key]) else None
  }

  /**
   * The checks `create_signal` makes before inserting: a non-empty body, then
   * `type`, `severity` and `source` present (the first one missing is
   * reported), then a severity from the fixed list. `bodyTime` is the body's
   * `timestamp` field already read as a time, when it has one.
   */
  method ValidateSignalBody(body: Option<map<string, string>>, bodyTime: Option<int>) returns (r: Result<SignalData, ApiError>)
    ensures r.Ok? <==> body.Some? && |body.value| > 0
                       && (forall f :: f in RequiredSignalFields ==> f in body.value)
                       && body.value["severity"] in ValidSeverities
    ensures r.Err? ==> r.error.BadRequest?
    ensures body.None? || |body.value| == 0 ==> r == Err(BadRequest("Request body is required"))
    ensures forall k :: 0 <= k < 3 && body.Some? && |body.value| > 0 && RequiredSignalFields[k] !in body.value
                        && (forall j :: 0 <= j < k ==> RequiredSignalFields[j] in body.value)
                        ==> r == Err(BadRequest(MissingFieldMessage(RequiredSignalFields[k])))
    ensures r.Ok? ==> r.value.severity == Some(body.value["severity"]) && r.value.sigType == Some(body.value["type"])
                      && r.value.source == Some(body.value["source"])
    ensures r.Ok? ==> r.value.status == Lookup(body.value, "status") && r.value.merchantId == Lookup(body.value, "merchant_id")
                      && r.value.endpoint == Lookup(body.value, "endpoint") && r.value.agentId == Lookup(body.value, "agent_id")
                      && r.value.timestamp == bodyTime
  {
    if body.None? || |body.value| == 0 {
      return Err(BadRequest("Request body is required"));
    }
    var data := body.value;
    var missing := FirstMissingField(RequiredSignalFields, data);
    if missing.Some? {
      return Err(BadRequest(MissingFieldMessage(RequiredSignalFields[missing.value])));
    }
    if data["severity"] !in ValidSeverities {
      return Err(BadRequest("Severity must be one of: ['CRITICAL', 'ERROR', 'WARN', 'INFO', 'SYSTEM']"));
    }
    r := Ok(SignalData(Some(data["severity"]), Some(data["type"]), Some(data["source"]),
                       Lookup(data, "endpoint"), Lookup(data, "merchant_id"), Lookup(data, "agent_id"),
                       Lookup(data, "status"), bodyTime));
  }

  /**
   * `POST /api/signals`: validate, then insert; nothing is written when
   * validation fails. An accepted body always gives a new row carrying the
   * body's fields, the column defaults for the others, and the body's time or
   * else `now`.
   */
  method CreateSignal(db: Store, body: Option<map<string, string>>, bodyTime: Option<int>, uuidHex: string, now: int)
    returns (r: Result<SignalRecord, ApiError>)
    requires db.Valid()
    requires FindSignal(db.signals, GenerateId("sig_", uuidHex)).None?
    modifies db
    ensures db.Valid()
    ensures r.Err? ==> r.error.BadRequest? && db.signals == old(db.signals)
    ensures r.Ok? <==> body.Some? && |body.value| > 0
                       && (forall f :: f in RequiredSignalFields ==> f in body.value)
                       && body.value["severity"] in ValidSeverities
    ensures r.Ok? ==> db.signals == old(db.signals) + [r.value] && r.value.severity in ValidSeverities
    ensures r.Ok? ==> r.value.id == GenerateId("sig_", uuidHex)
                      && r.value.severity == body.value["severity"] && r.value.sigType == body.value["type"]
                      && r.value.source == body.value["source"]
                      && r.value.status == Lookup(body.value, "status").GetOr("pending")
                      && r.value.endpoint == Lookup(body.value, "endpoint")
                      && r.value.merchantId == Lookup(body.value, "merchant_id")
                      && r.value.agentId == Lookup(body.value, "agent_id")
                      && r.value.timestamp == bodyTime.GetOr(now)
    ensures db.agents == old(db.agents) && db.processes == old(db.processes) && db.hilRequests == old(db.hilRequests)
    ensures db.merchants == old(db.merchants)
  {
    var v := ValidateSignalBody(body, bodyTime);
    if v.Err? {
      return Err(v.error);
    }
    var s := db.CreateSignal(v.value, uuidHex, now);
    r := Ok(s);
  }

  // ---------------------------------------------------------------- start_ooda_process

  /** The agent `start_ooda_process` assigns: the first idle agent, else the first agent of all. */
  function PickAgent(agents: seq<AgentRecord>): (r: Option<AgentRecord>)
    ensures r.None? <==> |agents| == 0
    ensures r.Some? ==> r.value in agents
    ensures (exists a :: a in agents && a.status == "idle") ==> r.Some? && r.value.status == "idle"
    ensures r.Some? && r.value.status == "idle" ==>
              exists k :: 0 <= k < |agents| && agents[k] == r.value && forall j :: 0 <= j < k ==> agents[j].status != "idle"
    ensures r.Some? && r.value.status != "idle" ==> r.value == agents[0]
  {
    var idle := AgentsWithStatus(agents, "idle");
    if |idle| > 0 then FirstWithStatus(agents, "idle"); Some(idle[0])
    else if |agents| > 0 then Some(agents[0])
    else None
  }

  /** The agent record after `start_ooda_process` hands it the signal. */
  function Assigned(a: AgentRecord, signalId: string): AgentRecord {
    a.(status := "processing", taskSignal := Some(signalId), taskStage := Some(Observe), progress := 0)
  }

  /**
   * `POST /api/ooda/start`: 400 without a signal id, 404 for an unknown
   * signal, 500 when there is no agent at all; otherwise a new process with
   * observe active, the agent busy at observe with progress 0, and the signal
   * `processing` and assigned to that agent.
   */
  method StartOodaProcess(db: Store, signalId: Option<string>, uuidHex: string) returns (r: Result<ProcessRecord, ApiError>)
    requires db.Valid()
    requires GenerateId("ooda_", uuidHex) !in db.processes
    modifies db
    ensures db.Valid()
    ensures signalId.None? || signalId.value == "" ==> r == Err(BadRequest("signal_id is required"))
    ensures signalId.Some? && signalId.value != "" && FindSignal(old(db.signals), signalId.value).None?
            ==> r == Err(NotFound("Signal not found"))
    ensures signalId.Some? && signalId.value != "" && FindSignal(old(db.signals), signalId.value).Some? && |old(db.agents)| == 0
            ==> r == Err(ServerError("No agents available"))
    ensures signalId.Some? && signalId.value != "" && FindSignal(old(db.signals), signalId.value).Some? && |old(db.agents)| > 0
            ==> r.Ok?
    ensures r.Err? ==> db.signals == old(db.signals) && db.agents == old(db.agents) && db.processes == old(db.processes)
    ensures r.Ok? ==> signalId.Some? && PickAgent(old(db.agents)).Some?
    ensures r.Ok? ==> r.value.signalId == signalId.value && r.value.agentId == PickAgent(old(db.agents)).value.id
    ensures r.Ok? ==> r.value.statuses == [Active, Pending, Pending, Pending] && db.processes == old(db.processes)[r.value.id := r.value]
    ensures r.Ok? ==> db.agents == ReplaceAgentRows(old(db.agents), Assigned(PickAgent(old(db.agents)).value, signalId.value))
    ensures r.Ok? ==> FindAgent(db.agents, r.value.agentId) == Some(Assigned(PickAgent(old(db.agents)).value, signalId.value))
    ensures r.Ok? ==> db.signals == UpdateSignalRows(old(db.signals), signalId.value, "processing", Some(r.value.agentId))
    ensures r.Ok? ==> FindSignal(db.signals, signalId.value).Some?
                      && FindSignal(db.signals, signalId.value).value.status == "processing"
                      && FindSignal(db.signals, signalId.value).value.agentId == Some(r.value.agentId)
    ensures db.hilRequests == old(db.hilRequests) && db.merchants == old(db.merchants)
  {
    if signalId.None? || signalId.value == "" {
      return Err(BadRequest("signal_id is required"));
    }
    var sid := signalId.value;
    if FindSignal(db.signals, sid).None? {
      return Err(NotFound("Signal not found"));
    }
    var agent := PickAgent(db.agents);
    if agent.None? {
      return Err(ServerError("No agents available"));
    }
    var a := agent.value;
    FindAgentPresent(db.agents, a);
    var p := db.CreateOodaProcess(a.id, sid, uuidHex);
    FindAgentAfterReplace(db.agents, Assigned(a, sid));
    db.UpdateAgent(Assigned(a, sid));
    FindSignalAfterUpdate(db.signals, sid, "processing", Some(a.id));
    db.UpdateSignal(sid, "processing", Some(a.id));
    r := Ok(p);
  }

  /** A stored agent can be found by its id. */
  lemma FindAgentPresent(rows: seq<AgentRecord>, a: AgentRecord)
    requires a in rows
    ensures FindAgent(rows, a.id).Some?
  {
  }

  // ---------------------------------------------------------------- fallback stage output

  /** What a stage produces: findings, context, a decision, or actions. */
  datatype StageOutput =
    | Findings(findings: seq<Line>)
    | Context(context: Line, related: seq<Line>)
    | Decision(chain: seq<Line>, solution: Solution)
    | Actions(actions: seq<ActionItem>)

  /** Python's f-string rendering of a column that may be NULL. */
  function Shown(v: Option<string>): string {
    if v.Some? then v.value else "None"
  }

  /** The decide-stage proposal: a config change at confidence 87, high risk exactly for CRITICAL signals. */
  function FallbackSolution(severity: string): (sol: Solution)
    ensures sol.kind == "config_change" && sol.confidence == 87
    ensures sol.riskLevel == "high" <==> severity == "CRITICAL"
    ensures sol.riskLevel == "medium" <==> severity != "CRITICAL"
  {
    Solution("config_change", SessionFixWithInjection, 87, if severity == "CRITICAL" then "high" else "medium")
  }

  /**
   * `_generate_fallback`: fixed texts per stage; the output's shape matches
   * the stage, and only decide's risk depends on the signal's severity.
   */
  function Fallback(stage: Stage, signal: SignalRecord): (o: StageOutput)
    ensures o.Findings? == (stage == Observe) && o.Context? == (stage == Orient)
    ensures o.Decision? == (stage == Decide) && o.Actions? == (stage == Act)
    ensures o.Findings? ==> |o.findings| == 5 && o.findings[0] == DetectedSignal(signal.severity, signal.sigType)
    ensures o.Context? ==> |o.related| == 2
    ensures o.Decision? ==> |o.chain| == 5 && o.solution.confidence == 87 && o.solution.kind == "config_change"
    ensures o.Decision? ==> (o.solution.riskLevel == "high" <==> signal.severity == "CRITICAL")
    ensures o.Actions? ==> |o.actions| == 3
  {
    match stage
    case Observe =>
      Findings([DetectedSignal(signal.severity, signal.sigType), SourceOf(signal.source),
                EndpointAffected(Shown(signal.endpoint)), AnalyzingHistory, CorrelatingChanges])
    case Orient => Context(PotentialIssue(signal.sigType), [SimilarPatternSeen, MigrationCorrelation])
    case Decide =>
      Decision([SpikeFrom(Shown(signal.endpoint)), SchemaComparison, HeadersHypothesis, RerouteDecision, AwaitingApproval],
               FallbackSolution(signal.severity))
    case Act =>
      Actions([ActionItem("config_update", UpdateSessionMapping), ActionItem("enable_feature", EnableTokenInjection),
               ActionItem("deploy_script", DeployLegacyFix)])
  }

  // ---------------------------------------------------------------- advance_ooda_step

  /**
   * The stage loops of `advance_ooda_step`: the first active stage, else the
   * first pending one (which the source writes back as active before
   * completing it).
   */
  method FindCurrentStage(v: seq<StageStatus>) returns (current: Option<nat>)
    requires |v| == 4
    ensures current == CurrentIndex(v)
    ensures current.Some? ==> current.value < 4 && v[current.value] != Complete
    ensures current.None? <==> forall j :: 0 <= j < 4 ==> v[j] == Complete
  {
    var i := 0;
    while i < 4
      invariant 0 <= i <= 4
      invariant forall j :: 0 <= j < i ==> v[j] != Active
    {
      if v[i] == Active {
        return Some(i);
      }
      i := i + 1;
    }
    i := 0;
    while i < 4
      invariant 0 <= i <= 4
      invariant forall j :: 0 <= j < i ==> v[j] != Pending
    {
      if v[i] == Pending {
        return Some(i);
      }
      i := i + 1;
    }
    return None;
  }

  /** The process record after stage `i` completes with output `o`. */
  function Completed(p: ProcessRecord, i: nat, o: StageOutput): ProcessRecord {
    var q := p.(statuses := StepStatuses(p.statuses));
    match o
    case Findings(f) => q.(findings := f)
    case Context(c, rel) => q.(context := Some(c), related := rel)
    case Decision(chain, sol) => q.(chain := chain, solution := Some(sol))
    case Actions(acts) => q.(actions := acts, completed := true)
  }

  /** The agent record after stage `i` completes: on to the next stage, or released after act. */
  function AgentAfterStep(a: AgentRecord, i: nat): (b: AgentRecord)
    requires i < 4
    ensures b.id == a.id && b.name == a.name
    ensures i < 3 ==> b.status == a.status && b.taskSignal == a.taskSignal
                      && b.taskStage == Some(Stages[i + 1]) && b.progress == 25 * (i + 1)
    ensures i == 3 ==> b.status == "idle" && b.taskSignal.None? && b.taskStage.None? && b.progress == 0
  {
    if i < 3 then a.(taskStage := Some(Stages[i + 1]), progress := (i + 1) * 25)
    else a.(status := "idle", taskSignal := None, taskStage := None, progress := 0)
  }

  datatype StepOutcome =
    | AlreadyComplete(process: ProcessRecord)
    | StageCompleted(stage: Stage, output: StageOutput, process: ProcessRecord)

  /**
   * The writes of one step once stage `i` is known to be current: the process
   * takes the stage's output and the stepped statuses, the agent moves on to
   * the next stage or is released after act, and completing act resolves the
   * signal.
   */
  method CompleteStage(db: Store, pid: string, i: nat) returns (output: StageOutput, updated: ProcessRecord)
    requires db.Valid() && pid in db.processes
    requires CurrentIndex(db.processes[pid].statuses) == Some(i) && i < 4
    modifies db
    ensures db.Valid()
    ensures var p := old(db.processes)[pid];
            && output == Fallback(Stages[i], FindSignal(old(db.signals), p.signalId).value)
            && updated == Completed(p, i, output)
            && db.processes == old(db.processes)[pid := updated]
            && db.agents == ReplaceAgentRows(old(db.agents), AgentAfterStep(FindAgent(old(db.agents), p.agentId).value, i))
            && db.signals == (if i < 3 then old(db.signals) else UpdateSignalRows(old(db.signals), p.signalId, "resolved", None))
    ensures db.hilRequests == old(db.hilRequests) && db.merchants == old(db.merchants)
  {
    var p := db.processes[pid];
    var signal := FindSignal(db.signals, p.signalId).value;
    var agent := FindAgent(db.agents, p.agentId).value;
    output := Fallback(Stages[i], signal);
    updated := Completed(p, i, output);
    db.UpdateAgent(AgentAfterStep(agent, i));
    if i == 3 {
      db.UpdateSignal(p.signalId, "resolved", None);
    }
    db.UpdateProcess(updated);
  }

  /**
   * `POST /api/ooda/step`: 400 without a process id, 404 for an unknown one;
   * a finished process is returned unchanged; otherwise the current stage is
   * completed. The proposed solution's risk is not consulted anywhere.
   */
  method AdvanceOodaStep(db: Store, processId: Option<string>) returns (r: Result<StepOutcome, ApiError>)
    requires db.Valid()
    modifies db
    ensures db.Valid()
    ensures processId.None? || processId.value == "" ==> r == Err(BadRequest("process_id is required"))
    ensures processId.Some? && processId.value != "" && processId.value !in old(db.processes)
            ==> r == Err(NotFound("OODA process not found"))
    ensures r.Err? || r.value.AlreadyComplete? ==>
              db.signals == old(db.signals) && db.agents == old(db.agents) && db.processes == old(db.processes)
    ensures r.Ok? ==> processId.Some? && processId.value in old(db.processes)
    ensures processId.Some? && processId.value != "" && processId.value in old(db.processes) ==>
              r.Ok? && (r.value.AlreadyComplete? <==> CurrentIndex(old(db.processes)[processId.value].statuses).None?)
    ensures r.Ok? && r.value.AlreadyComplete? ==>
              forall j :: 0 <= j < 4 ==> old(db.processes)[processId.value].statuses[j] == Complete
    ensures r.Ok? && r.value.StageCompleted? ==>
              var p := old(db.processes)[processId.value];
              && CurrentIndex(p.statuses) == Some(StageIndex(r.value.stage))
              && r.value.process.statuses == StepStatuses(p.statuses)
              && db.processes == old(db.processes)[processId.value := r.value.process]
              && r.value.output == Fallback(r.value.stage, FindSignal(old(db.signals), p.signalId).value)
              && r.value.process == Completed(p, StageIndex(r.value.stage), r.value.output)
              && db.agents == ReplaceAgentRows(old(db.agents),
                                               AgentAfterStep(FindAgent(old(db.agents), p.agentId).value, StageIndex(r.value.stage)))
              && db.signals == (if StageIndex(r.value.stage) < 3 then old(db.signals)
                                else UpdateSignalRows(old(db.signals), p.signalId, "resolved", None))
    ensures db.hilRequests == old(db.hilRequests) && db.merchants == old(db.merchants)
  {
    if processId.None? || processId.value == "" {
      return Err(BadRequest("process_id is required"));
    }
    var pid := processId.value;
    if pid !in db.processes {
      return Err(NotFound("OODA process not found"));
    }
    var current := FindCurrentStage(db.processes[pid].statuses);
    if current.None? {
      return Ok(AlreadyComplete(db.processes[pid]));
    }
    var i := current.value;
    assert StageIndex(Stages[i]) == i;
    var output, updated := CompleteStage(db, pid, i);
    r := Ok(StageCompleted(Stages[i], output, updated));
  }

  /**
   * Along a run, the agent's progress is 25 per completed stage while stages
   * remain, and the agent always points at the stage that is now active.
   */
  lemma ProgressCountsCompletedStages(v: seq<StageStatus>, a: AgentRecord)
    requires WellFormed(v) && Done(v) < 3
    ensures var w := StepStatuses(v);
            var b := AgentAfterStep(a, Done(v));
            && b.progress == 25 * Done(w)
            && b.taskStage.Some? && w[StageIndex(b.taskStage.value)] == Active
  {
    StepPreservesWellFormed(v);
    CurrentIndexOfWellFormed(v);
  }

  /**
   * There is no risk gate: from decide active, two steps complete the whole
   * process whatever solution decide proposed; the agent moves on to act and
   * the second step, which completes act, releases it (the same step resolves
   * the signal, as `AdvanceOodaStep` states).
   */
  lemma NoRiskGate(v: seq<StageStatus>, a: AgentRecord)
    requires WellFormed(v) && v[2] == Active
    ensures StepStatuses(v) == [Complete, Complete, Complete, Active]
    ensures StepStatuses(StepStatuses(v)) == [Complete, Complete, Complete, Complete]
    ensures CurrentIndex(StepStatuses(v)) == Some(3)
    ensures var b := AgentAfterStep(a, Done(v));
            && b.taskStage == Some(Act)
            && AgentAfterStep(b, Done(StepStatuses(v))).status == "idle"
            && AgentAfterStep(b, Done(StepStatuses(v))).taskSignal.None?
  {
    CurrentIndexOfWellFormed(v);
    assert Done(v) == 2;
    StepPreservesWellFormed(v);
    var w := StepStatuses(v);
    assert w == [Complete, Complete, Complete, Active];
    CurrentIndexOfWellFormed(w);
  }

  // ---------------------------------------------------------------- HIL requests

  /** `GET /api/hil-requests`: the pending queue when the status argument is 'pending' (the default), otherwise nothing. */
  function GetHilRequests(db: Store, status: Option<string>): (r: seq<HilRecord>)
    reads db
    ensures status.GetOr("pending") != "pending" ==> r == []
    ensures status.GetOr("pending") == "pending" ==>
              Ordering.Descending(r, CreatedAt) && forall h :: h in r <==> h in db.hilRequests && h.status == "pending"
  {
    if status.GetOr("pending") == "pending" then PendingHilRequests(db.hilRequests) else []
  }

  /**
   * `POST /api/hil-requests/<id>/resolve`: only 'approved' or 'rejected' are
   * accepted, an unknown id gives 404, and a request that was already
   * resolved is resolved again.
   */
  method ResolveHilRequest(db: Store, id: string, action: Option<string>, notes: Option<string>)
    returns (r: Result<HilRecord, ApiError>)
    requires db.Valid()
    modifies db
    ensures db.Valid()
    ensures action.None? || action.value !in {"approved", "rejected"} ==>
              r == Err(BadRequest("Action must be 'approved' or 'rejected'")) && db.hilRequests == old(db.hilRequests)
    ensures action.Some? && action.value in {"approved", "rejected"} ==>
              db.hilRequests == ResolveHilRows(old(db.hilRequests), id, action.value, notes)
              && (r.Ok? <==> FindHil(old(db.hilRequests), id).Some?)
              && (r.Err? ==> r == Err(NotFound("HIL request not found")))
    ensures r.Ok? ==> r.value.id == id && r.value.status == action.value
                      && r.value.resolution == Some(Resolution(action.value, "human_operator", notes))
    ensures db.signals == old(db.signals) && db.agents == old(db.agents) && db.processes == old(db.processes)
    ensures db.merchants == old(db.merchants)
  {
    if action.None? || action.value !in {"approved", "rejected"} {
      return Err(BadRequest("Action must be 'approved' or 'rejected'"));
    }
    var hil := db.ResolveHilRequest(id, action.value, notes);
    if hil.None? {
      return Err(NotFound("HIL request not found"));
    }
    if FindHil(old(db.hilRequests), id).Some? {
      FindHilAfterResolve(old(db.hilRequests), id, action.value, notes);
    }
    r := Ok(hil.value);
  }

  const RequiredHilFields: seq<string> := ["agent_id", "signal_id", "title", "proposed_action", "metrics"]

  /** `POST /api/hil-requests`: every required field must be present; the request is stored as pending. */
  method CreateHilRequest(db: Store, body: map<string, string>, uuidHex: string, now: int)
    returns (r: Result<HilRecord, ApiError>)
    requires db.Valid()
    requires FindHil(db.hilRequests, GenerateId("hil_", uuidHex)).None?
    modifies db
    ensures db.Valid()
    ensures r.Err? <==> exists f :: f in RequiredHilFields && f !in body
    ensures r.Err? ==> r.error.BadRequest? && db.hilRequests == old(db.hilRequests)
    ensures r.Ok? ==> db.hilRequests == old(db.hilRequests) + [r.value]
                      && r.value.status == "pending" && StartsWith(r.value.id, "hil_")
    ensures r.Ok? ==> r.value.id == GenerateId("hil_", uuidHex) && r.value.resolution.None?
                      && r.value.agentId == Lookup(body, "agent_id") && r.value.signalId == Lookup(body, "signal_id")
                      && r.value.processId == Lookup(body, "ooda_process_id") && r.value.title == Lookup(body, "title")
                      && r.value.description == Lookup(body, "description") && r.value.rootCause == Lookup(body, "root_cause")
                      && r.value.priority == Lookup(body, "priority").GetOr("medium")
                      && Lookup(body, "proposed_action") == Some(r.value.proposedAction)
                      && Lookup(body, "metrics") == Some(r.value.metrics)
                      && r.value.createdAt == now && r.value.expiresAt == now + HilLifetime
    ensures db.signals == old(db.signals) && db.agents == old(db.agents) && db.processes == old(db.processes)
    ensures db.merchants == old(db.merchants)
  {
    var missing := FirstMissingField(RequiredHilFields, body);
    if missing.Some? {
      return Err(BadRequest(MissingFieldMessage(RequiredHilFields[missing.value])));
    }
    assert RequiredHilFields[3] in body && RequiredHilFields[4] in body;
    var data := HilData(Lookup(body, "agent_id"), Lookup(body, "signal_id"), Lookup(body, "ooda_process_id"),
                        Lookup(body, "priority"), Lookup(body, "title"),
                        Lookup(body, "description"), Lookup(body, "root_cause"),
                        Lookup(body, "proposed_action"), Lookup(body, "metrics"));
    var h := db.CreateHilRequest(data, uuidHex, now);
    r := Ok(h);
  }
}
