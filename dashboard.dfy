/**
 * The dashboard page (frontend/src/pages/Dashboard.jsx): the data it loads
 * from the backend, the local OODA demo it animates for a signal, the demo
 * human-in-the-loop requests it queues, and the approve and reject handlers.
 *
 * Each `await` of a timer is a step in sequence; a component's state is a
 * field of `DashboardState`. React hands every handler the state of the
 * render that created it: `seen` is the `activeOODA` such a closure saw.
 */
module Dashboard {
  import opened Outcomes
  import opened Ooda
  import opened Messages
  import opened Text
  import opened Views
  import Database

  /** A JSON document the page passes on to its children without reading it. */
  type Payload = string

  /** A request the page sends to the backend. */
  datatype Request =
    | PutSignalResolved(signalId: string)   // PUT /api/signals/<id> with status resolved
    | GetSignal(path: string)               // GET /api/signals/<path>
    | ResolveHil(hilId: string, action: string)

  /**
   * What the six fetches of one `loadData` returned: `None` where a fetch
   * failed, or, for the four lists, where the response had no `data`.
   */
  datatype Refresh = Refresh(
    metrics: Option<Payload>, systemStatus: Option<Payload>,
    signals: Option<seq<SignalView>>, agents: Option<seq<AgentView>>,
    hilRequests: Option<seq<HilView>>, merchants: Option<seq<MerchantView>>)

  /** The loaded part of the page state. */
  datatype Loaded = Loaded(
    loading: bool, metrics: Option<Payload>, systemStatus: Option<Payload>,
    signals: seq<SignalView>, agents: seq<AgentView>,
    hilRequests: seq<HilView>, merchants: seq<MerchantView>)

  /** The loaded state after a refresh: what came back, `[]` for a missing list. */
  function AfterRefresh(r: Refresh): Loaded {
    Loaded(false, r.metrics, r.systemStatus, r.signals.GetOr([]), r.agents.GetOr([]),
           r.hilRequests.GetOr([]), r.merchants.GetOr([]))
  }

  // ---------------------------------------------------------------------
  // Choosing what the visualizer shows after a refresh
  // ---------------------------------------------------------------------

  /** `agents.find(a => a.status === 'processing')`. */
  function FirstProcessing(agents: seq<AgentView>): (r: Option<AgentView>)
    ensures r.Some? ==> r.value in agents && r.value.status == "processing"
    ensures r.Some? ==> exists k :: 0 <= k < |agents| && agents[k] == r.value &&
                          forall j :: 0 <= j < k ==> agents[j].status != "processing"
    ensures r.None? <==> forall a :: a in agents ==> a.status != "processing"
  {
    if |agents| == 0 then None
    else if agents[0].status == "processing" then Some(agents[0])
    else
      var r := FirstProcessing(agents[1..]);
      if r.Some? then
        var k :| 0 <= k < |agents[1..]| && agents[1..][k] == r.value &&
                 forall j :: 0 <= j < k ==> agents[1..][j].status != "processing";
        assert agents[k + 1] == r.value;
        r
      else r
  }

  /** `signals.find(s => s.id === id)`. */
  function FindSignalById(signals: seq<SignalView>, id: string): (r: Option<SignalView>)
    ensures r.Some? ==> r.value in signals && r.value.id == id
    ensures r.None? <==> forall s :: s in signals ==> s.id != id
  {
    if |signals| == 0 then None
    else if signals[0].id == id then Some(signals[0])
    else FindSignalById(signals[1..], id)
  }

  /**
   * The agent and signal the visualizer shows after a refresh that fetched
   * `agents` and `signals`, given what it showed before. Only a handler that
   * saw no OODA process on screen may replace them, and then only with an
   * agent that is processing a signal.
   */
  function MergeActive(agents: seq<AgentView>, signals: seq<SignalView>, seen: Option<OodaSnapshot>,
                       agent: Option<AgentView>, signal: Option<SignalView>): (r: (Option<AgentView>, Option<SignalView>))
    ensures seen.Some? ==> r == (agent, signal)
    ensures seen.None? && (FirstProcessing(agents).None? || FirstProcessing(agents).value.taskSignalId == "") ==>
              r == (agent, signal)
    ensures seen.None? && FirstProcessing(agents).Some? && FirstProcessing(agents).value.taskSignalId != "" ==>
              r.0 == FirstProcessing(agents) && r.1 == FindSignalById(signals, r.0.value.taskSignalId)
    ensures r != (agent, signal) ==>
              seen.None? && r.0.Some? && r.0.value in agents && r.0.value.status == "processing"
              && (r.1.None? || (r.1.value in signals && r.1.value.id == r.0.value.taskSignalId))
  {
    if seen.None? && FirstProcessing(agents).Some? && FirstProcessing(agents).value.taskSignalId != "" then
      var a := FirstProcessing(agents).value;
      (Some(a), FindSignalById(signals, a.taskSignalId))
    else (agent, signal)
  }

  // ---------------------------------------------------------------------
  // The OODA demo
  // ---------------------------------------------------------------------

  /** A signal the demo treats as high risk: it pauses for approval before act. */
  predicate IsHighRisk(s: SignalView) {
    s.severity == "CRITICAL" || s.sigType == "DB_SCHEMA_CORRUPTION"
  }

  const DemoAgent := AgentView("demo_agent", "DiagnosticsAgent", "processing", "")
  const DemoId := "demo_ooda"
  const HighRiskSolution := Solution("schema_change", RecreateLegacySession, 88, "high")
  const RoutineSolution := Solution("config_change", ApplySessionMappingFix, 94, "medium")
  const RoutineActions := [ActionItem("config_update", UpdateSessionMapping), ActionItem("enable_feature", EnableTokenInjection)]
  const ApprovedActions := [ActionItem("schema_change", RecreatedViaMigration), ActionItem("verify", VerifiedIntegrity)]

  function Statuses(observe: StageStatus, orient: StageStatus, decide: StageStatus, act: StageStatus): map<Stage, StageStatus> {
    map[Observe := observe, Orient := orient, Decide := decide, Act := act]
  }

  function DemoFindings(s: SignalView): seq<Line> {
    [DetectedSignal(s.severity, s.sigType), SourceOf(s.source), AnalyzingHistory]
  }

  /** The decide reasoning; a high-risk run adds the drastic proposal and the risk verdict. */
  function DemoChain(high: bool): seq<Line> {
    [DemoSpike, DemoSchemaComparison, DemoMissingMapping, DemoHypothesis]
      + (if high then [DemoDropRecreate, DemoRiskHigh] else [])
  }

  const ObserveSnapshot := OodaSnapshot(DemoId, Statuses(Active, Pending, Pending, Pending), None, None, None, None, None)

  function OrientSnapshot(s: SignalView): OodaSnapshot {
    OodaSnapshot(DemoId, Statuses(Complete, Active, Pending, Pending), Some(DemoFindings(s)), None, None, None, None)
  }

  function DecideSnapshot(s: SignalView): OodaSnapshot {
    var high := IsHighRisk(s);
    OodaSnapshot(DemoId, Statuses(Complete, Complete, Active, Pending), Some(DemoFindings(s)),
                 Some(if high then DemoCorruptionContext else DemoIssueContext), Some(DemoChain(high)), None, None)
  }

  /** A high-risk run completes decide with a high-risk proposal and holds act pending. */
  function PausedSnapshot(p: OodaSnapshot): OodaSnapshot {
    p.(statuses := p.statuses[Decide := Complete][Act := Pending], solution := Some(HighRiskSolution))
  }

  /** A routine run moves on to act; the snapshot is built anew, without findings or context. */
  function ActingSnapshot(chain: seq<Line>): OodaSnapshot {
    OodaSnapshot(DemoId, Statuses(Complete, Complete, Complete, Active), None, None, Some(chain), Some(RoutineSolution), None)
  }

  /** The routine run's last snapshot: all complete, the two actions, and no proposal. */
  function FinishedSnapshot(chain: seq<Line>): OodaSnapshot {
    OodaSnapshot(DemoId, Statuses(Complete, Complete, Complete, Complete), None, None, Some(chain), None, Some(RoutineActions))
  }

  function ResumedSnapshot(p: OodaSnapshot): OodaSnapshot {
    p.(statuses := p.statuses[Act := Active])
  }

  function ApprovedSnapshot(p: OodaSnapshot): OodaSnapshot {
    p.(statuses := p.statuses[Act := Complete], actions := Some(ApprovedActions))
  }

  /** The snapshots the demo for `s` puts on screen, in order. */
  function DemoTrace(s: SignalView): (t: seq<OodaSnapshot>)
    ensures |t| == if IsHighRisk(s) then 4 else 5
  {
    var d := DecideSnapshot(s);
    if IsHighRisk(s) then [ObserveSnapshot, OrientSnapshot(s), d, PausedSnapshot(d)]
    else [ObserveSnapshot, OrientSnapshot(s), d, ActingSnapshot(DemoChain(false)), FinishedSnapshot(DemoChain(false))]
  }

  /** The snapshots an approval puts on screen after the run paused at `p`. */
  function ApprovalTrace(p: OodaSnapshot): seq<OodaSnapshot> {
    [ResumedSnapshot(p), ApprovedSnapshot(ResumedSnapshot(p))]
  }

  /** `activeOODA && activeOODA.decide_proposed_solution?.risk_level === 'high'`. */
  predicate AwaitsApproval(o: Option<OodaSnapshot>) {
    o.Some? && o.value.solution.Some? && o.value.solution.value.riskLevel == "high"
  }

  /** The demo approval request queued when a high-risk run pauses. */
  function DemoHilRequest(s: SignalView, nowMs: nat, isoNow: string): (h: HilView)
    ensures StartsWith(h.id, "hil_") && h.id[4..] == NatToString(nowMs)
    ensures h.signalId == s.id && h.riskLevel == "high" && h.status == "pending"
    ensures h.title == "Approve High-Risk Fix: " + s.sigType && h.agentId == "demo_agent" && h.createdAt == isoNow
  {
    HilView("hil_" + NatToString(nowMs), "Approve High-Risk Fix: " + s.sigType, "demo_agent", s.id, "pending", isoNow, "high")
  }

  /** The agent and signal on screen once the demo for `signal` has run, before any later refresh. */
  function AfterDemo(signal: SignalView, r: Refresh, seen: Option<OodaSnapshot>): (Option<AgentView>, Option<SignalView>) {
    if IsHighRisk(signal) then (Some(DemoAgent), Some(signal))
    else MergeActive(r.agents.GetOr([]), r.signals.GetOr([]), seen, Some(DemoAgent), Some(signal))
  }

  // ---------------------------------------------------------------------
  // Approve and reject
  // ---------------------------------------------------------------------

  /** The requests without the one whose id is `id`, in their order. */
  function WithoutId(reqs: seq<HilView>, id: string): (r: seq<HilView>)
    ensures forall h :: h in r <==> h in reqs && h.id != id
    ensures |r| <= |reqs|
  {
    if |reqs| == 0 then []
    else (if reqs[0].id == id then [] else [reqs[0]]) + WithoutId(reqs[1..], id)
  }

  /** What approving `id` sends to the backend, given the process and signal on screen. */
  function ApproveRequests(id: string, o: Option<OodaSnapshot>, signal: Option<SignalView>): seq<Request> {
    if StartsWith(id, "hil_") then
      if AwaitsApproval(o) then
        [GetSignal(if o.value.id != "" then "n/a" else "demo_signal_id_unavailable")]
          + (if signal.Some? && signal.value.id != "" then [PutSignalResolved(signal.value.id)] else [])
      else []
    else [ResolveHil(id, "approved")]
  }

  /** What rejecting `id` sends to the backend. */
  function RejectRequests(id: string): seq<Request> {
    if StartsWith(id, "hil_") then [] else [ResolveHil(id, "rejected")]
  }

  class DashboardState {
    var loading: bool
    var metrics: Option<Payload>
    var systemStatus: Option<Payload>
    var signals: seq<SignalView>
    var agents: seq<AgentView>
    var hilRequests: seq<HilView>
    var merchants: seq<MerchantView>
    var activeOODA: Option<OodaSnapshot>
    var activeAgent: Option<AgentView>
    var activeSignal: Option<SignalView>
    var demoHilRequests: seq<HilView>
    /** The requests sent to the backend so far, oldest first. */
    var outbox: seq<Request>
    /** Every snapshot handed to the visualizer so far, oldest first. */
    ghost var shown: seq<OodaSnapshot>

    ghost function Fetched(): Loaded
      reads this
    {
      Loaded(loading, metrics, systemStatus, signals, agents, hilRequests, merchants)
    }

    constructor()
      ensures Fetched() == Loaded(true, None, None, [], [], [], [])
      ensures activeOODA == None && activeAgent == None && activeSignal == None
      ensures demoHilRequests == [] && outbox == [] && shown == []
    {
      loading := true;
      metrics, systemStatus := None, None;
      signals, agents, hilRequests, merchants := [], [], [], [];
      activeOODA, activeAgent, activeSignal := None, None, None;
      demoHilRequests, outbox := [], [];
      shown := [];
    }

    /** The queue handed to the HIL panel: the demo requests first, then the backend's. */
    function HilQueue(): (q: seq<HilView>)
      reads this
      ensures |q| == |demoHilRequests| + |hilRequests|
      ensures q[..|demoHilRequests|] == demoHilRequests && q[|demoHilRequests|..] == hilRequests
    {
      demoHilRequests + hilRequests
    }

    /** Stores what one refresh fetched. */
    method StoreRefresh(refresh: Refresh)
      modifies this
      ensures Fetched() == AfterRefresh(refresh)
      ensures activeOODA == old(activeOODA) && activeAgent == old(activeAgent) && activeSignal == old(activeSignal)
      ensures demoHilRequests == old(demoHilRequests) && outbox == old(outbox) && shown == old(shown)
    {
      metrics, systemStatus := refresh.metrics, refresh.systemStatus;
      signals, agents := refresh.signals.GetOr([]), refresh.agents.GetOr([]);
      hilRequests, merchants := refresh.hilRequests.GetOr([]), refresh.merchants.GetOr([]);
      loading := false;
    }

    /** Shows the first agent that is processing a signal, with that signal, if there is one. */
    method FollowBackendAgent()
      modifies this
      ensures (activeAgent, activeSignal) == MergeActive(agents, signals, None, old(activeAgent), old(activeSignal))
      ensures Fetched() == old(Fetched()) && activeOODA == old(activeOODA)
      ensures demoHilRequests == old(demoHilRequests) && outbox == old(outbox) && shown == old(shown)
    {
      var active := FirstProcessing(agents);
      if active.Some? && active.value.taskSignalId != "" {
        activeAgent := active;
        activeSignal := FindSignalById(signals, active.value.taskSignalId);
      }
    }

    /** `loadData` as created by a render that saw `seen` on screen. */
    method LoadData(refresh: Refresh, seen: Option<OodaSnapshot>)
      modifies this
      ensures Fetched() == AfterRefresh(refresh)
      ensures (activeAgent, activeSignal)
              == MergeActive(agents, signals, seen, old(activeAgent), old(activeSignal))
      ensures activeOODA == old(activeOODA) && demoHilRequests == old(demoHilRequests)
      ensures outbox == old(outbox) && shown == old(shown)
    {
      StoreRefresh(refresh);
      if seen.None? {
        FollowBackendAgent();
      }
    }

    /** Puts `p` on screen. */
    method Show(p: OodaSnapshot)
      modifies this
      ensures activeOODA == Some(p) && shown == old(shown) + [p]
      ensures Fetched() == old(Fetched()) && activeAgent == old(activeAgent) && activeSignal == old(activeSignal)
      ensures demoHilRequests == old(demoHilRequests) && outbox == old(outbox)
    {
      activeOODA := Some(p);
      shown := shown + [p];
    }

    /** The first three snapshots of a demo run, up to decide in progress. */
    method AnimateToDecide(signal: SignalView)
      modifies this
      ensures shown == old(shown) + DemoTrace(signal)[..3]
      ensures activeOODA == Some(DecideSnapshot(signal))
      ensures activeAgent == Some(DemoAgent) && activeSignal == Some(signal)
      ensures Fetched() == old(Fetched()) && demoHilRequests == old(demoHilRequests) && outbox == old(outbox)
    {
      activeAgent := Some(DemoAgent);
      activeSignal := Some(signal);
      Show(ObserveSnapshot);
      Show(OrientSnapshot(signal));
      Show(DecideSnapshot(signal));
    }

    /**
     * `runOODADemo(signal)`: walks the visualizer through the stages; a
     * high-risk run stops after decide and queues an approval request, a
     * routine run finishes, marks the signal resolved and reloads.
     */
    method RunOodaDemo(signal: SignalView, nowMs: nat, isoNow: string, refresh: Refresh, seen: Option<OodaSnapshot>)
      modifies this
      ensures shown == old(shown) + DemoTrace(signal)
      ensures activeOODA == Some(DemoTrace(signal)[|DemoTrace(signal)| - 1])
      ensures (activeAgent, activeSignal) == AfterDemo(signal, refresh, seen)
      ensures IsHighRisk(signal) ==>
                demoHilRequests == [DemoHilRequest(signal, nowMs, isoNow)] + old(demoHilRequests)
                && outbox == old(outbox) && Fetched() == old(Fetched())
      ensures !IsHighRisk(signal) ==>
                demoHilRequests == old(demoHilRequests)
                && outbox == old(outbox) + [PutSignalResolved(signal.id)] && Fetched() == AfterRefresh(refresh)
    {
      AnimateToDecide(signal);
      ghost var before := shown;
      var t := DemoTrace(signal);
      if IsHighRisk(signal) {
        Show(PausedSnapshot(DecideSnapshot(signal)));
        assert t == t[..3] + [t[3]];
        demoHilRequests := [DemoHilRequest(signal, nowMs, isoNow)] + demoHilRequests;
        return;
      }
      Show(ActingSnapshot(DemoChain(false)));
      Show(FinishedSnapshot(DemoChain(false)));
      assert t == t[..3] + [t[3], t[4]];
      outbox := outbox + [PutSignalResolved(signal.id)];
      LoadData(refresh, seen);
    }

    /**
     * `handleDemoSignal(signal)`, called by the header with the signal it
     * injected (or nothing when the injection failed): lists the signal,
     * runs the demo for it, then reloads.
     */
    method HandleDemoSignal(signal: Option<SignalView>, nowMs: nat, isoNow: string, demoRefresh: Refresh, refresh: Refresh)
      modifies this
      ensures signal.Some? ==> shown == old(shown) + DemoTrace(signal.value)
      ensures signal.None? ==> shown == old(shown) && activeOODA == old(activeOODA)
      ensures signal.Some? ==> activeOODA == Some(DemoTrace(signal.value)[|DemoTrace(signal.value)| - 1])
      ensures Fetched() == AfterRefresh(refresh)
      ensures var (a, s) := if signal.Some? then AfterDemo(signal.value, demoRefresh, old(activeOODA))
                            else (old(activeAgent), old(activeSignal));
              (activeAgent, activeSignal) == MergeActive(agents, signals, old(activeOODA), a, s)
      ensures signal.Some? && IsHighRisk(signal.value) ==>
                demoHilRequests == [DemoHilRequest(signal.value, nowMs, isoNow)] + old(demoHilRequests)
                && outbox == old(outbox)
      ensures signal.Some? && !IsHighRisk(signal.value) ==>
                demoHilRequests == old(demoHilRequests) && outbox == old(outbox) + [PutSignalResolved(signal.value.id)]
      ensures signal.None? ==> demoHilRequests == old(demoHilRequests) && outbox == old(outbox)
    {
      var seen := activeOODA;
      if signal.Some? {
        signals := [signal.value] + signals;
        RunOodaDemo(signal.value, nowMs, isoNow, demoRefresh, seen);
      }
      LoadData(refresh, seen);
    }

    /**
     * `handleApproveHIL(id)`. An id starting with "hil_" is taken for a demo
     * request: it leaves the demo queue and, when the process on screen awaits
     * approval, act runs to completion, the signal is marked resolved and the
     * visualizer is cleared. Any other id is approved on the backend, and the
     * page reloads when that call succeeds.
     */
    method ApproveHil(id: string, backendOk: bool, refresh: Refresh)
      modifies this
      ensures outbox == old(outbox) + ApproveRequests(id, old(activeOODA), old(activeSignal))
      ensures StartsWith(id, "hil_") ==> demoHilRequests == WithoutId(old(demoHilRequests), id)
      ensures !StartsWith(id, "hil_") ==> demoHilRequests == old(demoHilRequests)
      ensures StartsWith(id, "hil_") && AwaitsApproval(old(activeOODA)) ==>
                shown == old(shown) + ApprovalTrace(old(activeOODA).value)
                && activeOODA == None && activeAgent == None && activeSignal == None
                && Fetched() == AfterRefresh(refresh)
      ensures StartsWith(id, "hil_") && !AwaitsApproval(old(activeOODA)) ==>
                shown == old(shown) && activeOODA == old(activeOODA) && activeAgent == old(activeAgent)
                && activeSignal == old(activeSignal) && Fetched() == old(Fetched())
      ensures !StartsWith(id, "hil_") ==> shown == old(shown) && activeOODA == old(activeOODA)
      ensures !StartsWith(id, "hil_") && backendOk ==>
                Fetched() == AfterRefresh(refresh)
                && (activeAgent, activeSignal) == MergeActive(agents, signals, old(activeOODA), old(activeAgent), old(activeSignal))
      ensures !StartsWith(id, "hil_") && !backendOk ==>
                Fetched() == old(Fetched()) && activeAgent == old(activeAgent) && activeSignal == old(activeSignal)
    {
      var seen := activeOODA;
      if StartsWith(id, "hil_") {
        demoHilRequests := WithoutId(demoHilRequests, id);
        if AwaitsApproval(activeOODA) {
          var sent := ApproveRequests(id, activeOODA, activeSignal);
          var resumed := ResumedSnapshot(activeOODA.value);
          Show(resumed);
          Show(ApprovedSnapshot(resumed));
          outbox := outbox + sent;
          activeOODA, activeAgent, activeSignal := None, None, None;
          LoadData(refresh, seen);
        }
        return;
      }
      outbox := outbox + [ResolveHil(id, "approved")];
      if backendOk {
        LoadData(refresh, seen);
      }
    }

    /**
     * `handleRejectHIL(id)`. A demo request leaves the queue and the
     * visualizer is cleared, with nothing sent; any other id is rejected on
     * the backend, and the page reloads when that call succeeds.
     */
    method RejectHil(id: string, backendOk: bool, refresh: Refresh)
      modifies this
      ensures outbox == old(outbox) + RejectRequests(id)
      ensures shown == old(shown)
      ensures StartsWith(id, "hil_") ==>
                demoHilRequests == WithoutId(old(demoHilRequests), id)
                && activeOODA == None && activeAgent == None && activeSignal == None
                && Fetched() == old(Fetched())
      ensures !StartsWith(id, "hil_") ==> demoHilRequests == old(demoHilRequests) && activeOODA == old(activeOODA)
      ensures !StartsWith(id, "hil_") && backendOk ==>
                Fetched() == AfterRefresh(refresh)
                && (activeAgent, activeSignal) == MergeActive(agents, signals, old(activeOODA), old(activeAgent), old(activeSignal))
      ensures !StartsWith(id, "hil_") && !backendOk ==>
                Fetched() == old(Fetched()) && activeAgent == old(activeAgent) && activeSignal == old(activeSignal)
    {
      if StartsWith(id, "hil_") {
        demoHilRequests := WithoutId(demoHilRequests, id);
        activeOODA, activeAgent, activeSignal := None, None, None;
        return;
      }
      outbox := outbox + [ResolveHil(id, "rejected")];
      if backendOk {
        LoadData(refresh, activeOODA);
      }
    }

    /**
     * The three-second poll as written: the interval keeps the `loadData` of
     * the first render, which saw no OODA process, so every poll may replace
     * the agent and signal on screen, a running demo's included.
     */
    method PollAsWritten(refresh: Refresh)
      modifies this
      ensures Fetched() == AfterRefresh(refresh)
      ensures (activeAgent, activeSignal) == MergeActive(agents, signals, None, old(activeAgent), old(activeSignal))
      ensures activeOODA == old(activeOODA) && demoHilRequests == old(demoHilRequests)
      ensures outbox == old(outbox) && shown == old(shown)
    {
      LoadData(refresh, None);
    }

    /** The poll as intended: it consults the process on screen now, so a demo keeps its agent and signal. */
    method Poll(refresh: Refresh)
      modifies this
      ensures Fetched() == AfterRefresh(refresh)
      ensures activeOODA.Some? ==> activeAgent == old(activeAgent) && activeSignal == old(activeSignal)
      ensures (activeAgent, activeSignal) == MergeActive(agents, signals, activeOODA, old(activeAgent), old(activeSignal))
      ensures activeOODA == old(activeOODA) && demoHilRequests == old(demoHilRequests)
      ensures outbox == old(outbox) && shown == old(shown)
    {
      LoadData(refresh, activeOODA);
    }
  }

  // ---------------------------------------------------------------------
  // Properties of the demo
  // ---------------------------------------------------------------------

  /** The statuses of a snapshot built from `Statuses`, in stage order. */
  lemma VectorOf(p: OodaSnapshot, o: StageStatus, r: StageStatus, d: StageStatus, a: StageStatus)
    requires p.statuses == Statuses(o, r, d, a)
    ensures StatusVector(p) == [o, r, d, a]
  {
  }

  /** The status vector of every snapshot of a demo run, in order. */
  lemma DemoVectors(s: SignalView)
    ensures StatusVector(DemoTrace(s)[0]) == [Active, Pending, Pending, Pending]
    ensures StatusVector(DemoTrace(s)[1]) == [Complete, Active, Pending, Pending]
    ensures StatusVector(DemoTrace(s)[2]) == [Complete, Complete, Active, Pending]
    ensures IsHighRisk(s) ==> StatusVector(DemoTrace(s)[3]) == [Complete, Complete, Complete, Pending]
    ensures !IsHighRisk(s) ==> StatusVector(DemoTrace(s)[3]) == [Complete, Complete, Complete, Active]
    ensures !IsHighRisk(s) ==> StatusVector(DemoTrace(s)[4]) == [Complete, Complete, Complete, Complete]
  {
    var t := DemoTrace(s);
    VectorOf(t[0], Active, Pending, Pending, Pending);
    VectorOf(t[1], Complete, Active, Pending, Pending);
    VectorOf(t[2], Complete, Complete, Active, Pending);
    if IsHighRisk(s) {
      assert t[3].statuses == Statuses(Complete, Complete, Complete, Pending);
      VectorOf(t[3], Complete, Complete, Complete, Pending);
    } else {
      VectorOf(t[3], Complete, Complete, Complete, Active);
      VectorOf(t[4], Complete, Complete, Complete, Complete);
    }
  }

  /** The backend step on the vectors the demo goes through. */
  lemma StepsOnDemoVectors()
    ensures StepStatuses([Active, Pending, Pending, Pending]) == [Complete, Active, Pending, Pending]
    ensures StepStatuses([Complete, Active, Pending, Pending]) == [Complete, Complete, Active, Pending]
    ensures StepStatuses([Complete, Complete, Active, Pending]) == [Complete, Complete, Complete, Active]
    ensures StepStatuses([Complete, Complete, Complete, Active]) == [Complete, Complete, Complete, Complete]
  {
    assert FirstWith([Active, Pending, Pending, Pending], Active) == Some(0);
    assert FirstWith([Complete, Active, Pending, Pending], Active) == Some(1);
    var v2 := [Complete, Complete, Active, Pending];
    assert v2[1..] == [Complete, Active, Pending];
    assert FirstWith(v2, Active) == Some(2);
    var v3 := [Complete, Complete, Complete, Active];
    assert v3[1..] == [Complete, Complete, Active];
    assert v3[1..][1..] == [Complete, Active];
    assert FirstWith(v3, Active) == Some(3);
  }

  /** How many stages of each demo vector are done. */
  lemma DoneOnDemoVectors()
    ensures Done([Active, Pending, Pending, Pending]) == 0
    ensures Done([Complete, Active, Pending, Pending]) == 1
    ensures Done([Complete, Complete, Active, Pending]) == 2
    ensures Done([Complete, Complete, Complete, Pending]) == 3
    ensures Done([Complete, Complete, Complete, Active]) == 3
    ensures Done([Complete, Complete, Complete, Complete]) == 4
  {
    var c := [Complete, Complete, Complete, Complete];
    assert c[1..] == [Complete, Complete, Complete];
    assert c[1..][1..] == [Complete, Complete];
    assert c[1..][1..][1..] == [Complete];
    var p := [Complete, Complete, Complete, Pending];
    assert p[1..] == [Complete, Complete, Pending];
    assert p[1..][1..] == [Complete, Pending];
    var a := [Complete, Complete, Complete, Active];
    assert a[1..] == [Complete, Complete, Active];
    assert a[1..][1..] == [Complete, Active];
    var d := [Complete, Complete, Active, Pending];
    assert d[1..] == [Complete, Active, Pending];
  }

  /** The k-th snapshot of a demo run is well formed with exactly k stages complete. */
  lemma DemoSnapshotsWellFormed(s: SignalView)
    ensures forall k :: 0 <= k < |DemoTrace(s)| ==>
              WellFormed(StatusVector(DemoTrace(s)[k])) && Done(StatusVector(DemoTrace(s)[k])) == k
  {
    var t := DemoTrace(s);
    DemoVectors(s);
    DoneOnDemoVectors();
    WellFormedDemoVectors();
    forall k | 0 <= k < |t|
      ensures WellFormed(StatusVector(t[k])) && Done(StatusVector(t[k])) == k
    {
      if k == 0 {
      } else if k == 1 {
      } else if k == 2 {
      } else if k == 3 {
      } else {
      }
    }
  }

  lemma WellFormedDemoVectors()
    ensures WellFormed([Active, Pending, Pending, Pending])
    ensures WellFormed([Complete, Active, Pending, Pending])
    ensures WellFormed([Complete, Complete, Active, Pending])
    ensures WellFormed([Complete, Complete, Complete, Pending])
    ensures WellFormed([Complete, Complete, Complete, Active])
    ensures WellFormed([Complete, Complete, Complete, Complete])
  {
    DoneOnDemoVectors();
  }

  /**
   * Each snapshot of a demo run is the backend's step from the one before,
   * except that a high-risk run completes decide while holding act pending.
   */
  lemma DemoFollowsSteps(s: SignalView)
    ensures forall k :: 0 <= k < |DemoTrace(s)| - 1 && (k < 2 || !IsHighRisk(s)) ==>
              StatusVector(DemoTrace(s)[k + 1]) == StepStatuses(StatusVector(DemoTrace(s)[k]))
    ensures IsHighRisk(s) ==>
              StatusVector(DemoTrace(s)[3]) == StepStatuses(StatusVector(DemoTrace(s)[2]))[3 := Pending]
  {
    DemoVectors(s);
    StepsOnDemoVectors();
  }

  /**
   * A high-risk run never lets act start: it ends paused after decide with
   * the high-risk proposal and the six-line reasoning, awaiting approval.
   */
  lemma HighRiskRunWaits(s: SignalView)
    requires IsHighRisk(s)
    ensures forall k :: 0 <= k < |DemoTrace(s)| ==> StatusVector(DemoTrace(s)[k])[3] == Pending
    ensures var last := DemoTrace(s)[3];
            AwaitsApproval(Some(last)) && last.solution == Some(HighRiskSolution)
            && last.chain == Some(DemoChain(true)) && |DemoChain(true)| == 6
            && StatusVector(last)[2] == Complete
  {
    DemoVectors(s);
  }

  /**
   * A routine run never asks for approval and finishes with every stage
   * complete and its two actions.
   */
  lemma RoutineRunFinishes(s: SignalView)
    requires !IsHighRisk(s)
    ensures forall k :: 0 <= k < |DemoTrace(s)| ==> !AwaitsApproval(Some(DemoTrace(s)[k]))
    ensures StatusVector(DemoTrace(s)[4]) == [Complete, Complete, Complete, Complete]
    ensures DemoTrace(s)[4].actions == Some(RoutineActions)
  {
    DemoVectors(s);
  }

  /**
   * Approving the paused run takes it the last two steps of the backend state
   * machine: act becomes active, then complete, with the approved actions.
   */
  lemma ApprovalCompletesRun(s: SignalView)
    requires IsHighRisk(s)
    ensures var a := ApprovalTrace(DemoTrace(s)[3]);
            StatusVector(a[0]) == StepStatuses(StatusVector(DemoTrace(s)[2]))
            && StatusVector(a[1]) == StepStatuses(StatusVector(a[0]))
            && WellFormed(StatusVector(a[1])) && Done(StatusVector(a[1])) == 4
            && a[1].actions == Some(ApprovedActions)
  {
    var p := DemoTrace(s)[3];
    assert p.statuses == Statuses(Complete, Complete, Complete, Pending);
    var a := ApprovalTrace(p);
    assert a[0].statuses == Statuses(Complete, Complete, Complete, Active);
    VectorOf(a[0], Complete, Complete, Complete, Active);
    assert a[1].statuses == Statuses(Complete, Complete, Complete, Complete);
    VectorOf(a[1], Complete, Complete, Complete, Complete);
    DemoVectors(s);
    StepsOnDemoVectors();
    DoneOnDemoVectors();
  }

  /**
   * Every request the backend creates has an id starting with "hil_", which
   * the handlers take for a demo request: approving or rejecting one from the
   * dashboard never reaches the backend's resolve endpoint.
   */
  lemma BackendRequestsNeverResolved(uuidHex: string, o: Option<OodaSnapshot>, signal: Option<SignalView>)
    ensures forall r :: r in ApproveRequests(Database.GenerateId("hil_", uuidHex), o, signal) ==> !r.ResolveHil?
    ensures RejectRequests(Database.GenerateId("hil_", uuidHex)) == []
  {
  }

  /**
   * Whether `id` names a request of the page's own demo queue: the test the
   * approve and reject handlers evidently mean, where the `hil_` prefix they
   * use is shared by every backend request.
   */
  predicate InDemoQueue(id: string, demoQueue: seq<HilView>) {
    exists h :: h in demoQueue && h.id == id
  }

  /** What approving `id` would send with the demo test made on the demo queue. */
  function ApproveRequestsIntended(id: string, demoQueue: seq<HilView>, o: Option<OodaSnapshot>,
                                   signal: Option<SignalView>): (r: seq<Request>)
    ensures !InDemoQueue(id, demoQueue) ==> r == [ResolveHil(id, "approved")]
    ensures InDemoQueue(id, demoQueue) ==> forall q :: q in r ==> !q.ResolveHil?
  {
    if InDemoQueue(id, demoQueue) then
      if AwaitsApproval(o) then
        [GetSignal(if o.value.id != "" then "n/a" else "demo_signal_id_unavailable")]
          + (if signal.Some? && signal.value.id != "" then [PutSignalResolved(signal.value.id)] else [])
      else []
    else [ResolveHil(id, "approved")]
  }

  /** What rejecting `id` would send with the demo test made on the demo queue. */
  function RejectRequestsIntended(id: string, demoQueue: seq<HilView>): (r: seq<Request>)
    ensures r == [] <==> InDemoQueue(id, demoQueue)
    ensures r != [] ==> r == [ResolveHil(id, "rejected")]
  {
    if InDemoQueue(id, demoQueue) then [] else [ResolveHil(id, "rejected")]
  }

  /**
   * With the demo test made on the queue, a backend request (which is never
   * in the demo queue) is approved or rejected on the backend, while the demo
   * requests, whose ids all start with "hil_", are handled exactly as before.
   */
  lemma {:induction false} IntendedRequestsReachBackend(id: string, demoQueue: seq<HilView>,
                                                        o: Option<OodaSnapshot>, signal: Option<SignalView>)
    requires forall h :: h in demoQueue ==> StartsWith(h.id, "hil_")
    ensures !InDemoQueue(id, demoQueue) ==>
              ApproveRequestsIntended(id, demoQueue, o, signal) == [ResolveHil(id, "approved")]
              && RejectRequestsIntended(id, demoQueue) == [ResolveHil(id, "rejected")]
    ensures InDemoQueue(id, demoQueue) ==>
              ApproveRequestsIntended(id, demoQueue, o, signal) == ApproveRequests(id, o, signal)
              && RejectRequestsIntended(id, demoQueue) == RejectRequests(id)
  {
    if InDemoQueue(id, demoQueue) {
      var h :| h in demoQueue && h.id == id;
      assert StartsWith(id, "hil_");
    }
  }

  /**
   * The stale poll at work: while a demo shows the demo agent, a backend agent
   * processing a signal replaces it on the first poll.
   */
  lemma StalePollReplacesDemo()
    ensures var busy := AgentView("agent_1", "Issue Resolution Agent", "processing", "sig_1");
            var sig := SignalView("sig_1", "API_LATENCY", "WARN", "api-gateway", "m1", "processing", "");
            var demoSignal := SignalView("sig_9", "DB_SCHEMA_CORRUPTION", "CRITICAL", "db", "m2", "active", "");
            MergeActive([busy], [sig], None, Some(DemoAgent), Some(demoSignal)) == (Some(busy), Some(sig))
            && MergeActive([busy], [sig], Some(ObserveSnapshot), Some(DemoAgent), Some(demoSignal))
               == (Some(DemoAgent), Some(demoSignal))
  {
  }
}
