/**
 * The records the React dashboard receives from the backend or builds
 * locally. A text field that is absent, null or empty is "" here: the
 * components only ever test such fields for truthiness, and JavaScript treats
 * all three alike.
 */
module Views {
  import opened Outcomes
  import opened Ooda
  import opened Messages

  datatype SignalView = SignalView(
    id: string, sigType: string, severity: string, source: string,
    merchantId: string, status: string, timestamp: string)

  datatype AgentView = AgentView(id: string, name: string, status: string, taskSignalId: string)

  datatype HilView = HilView(
    id: string, title: string, agentId: string, signalId: string,
    status: string, createdAt: string, riskLevel: string)

  datatype MerchantView = MerchantView(id: string, name: string, logo: string)

  /**
   * An OODA process as the dashboard holds it: a status per stage, where a
   * stage without an entry reads as pending, and whatever stage outputs the
   * snapshot carries.
   */
  datatype OodaSnapshot = OodaSnapshot(
    id: string,
    statuses: map<Stage, StageStatus>,
    findings: Option<seq<Line>>,
    context: Option<Line>,
    chain: Option<seq<Line>>,
    solution: Option<Solution>,
    actions: Option<seq<ActionItem>>)

  function StatusOf(p: OodaSnapshot, s: Stage): StageStatus {
    if s in p.statuses then p.statuses[s] else Pending
  }

  /** The four statuses in stage order, the shape the backend state machine works on. */
  function StatusVector(p: OodaSnapshot): (v: seq<StageStatus>)
    ensures |v| == 4 && forall i :: 0 <= i < 4 ==> v[i] == StatusOf(p, Stages[i])
  {
    [StatusOf(p, Observe), StatusOf(p, Orient), StatusOf(p, Decide), StatusOf(p, Act)]
  }
}
