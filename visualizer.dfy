/**
 * The OODA panel (frontend/src/components/dashboard/OODAVisualizer.jsx):
 * the status shown for each stage, the stage marked as in progress, the
 * connectors between stages and the numbered chain of thought.
 */
module Visualizer {
  import opened Outcomes
  import opened Ooda
  import opened Messages
  import opened Views

  /** `getStageStatus`: with no process, or no status for the stage, the stage reads pending. */
  function GetStageStatus(p: Option<OodaSnapshot>, s: Stage): (r: StageStatus)
    ensures p.None? ==> r == Pending
    ensures p.Some? && s !in p.value.statuses ==> r == Pending
    ensures p.Some? ==> r == StatusVector(p.value)[StageIndex(s)]
  {
    if p.None? then Pending else StatusOf(p.value, s)
  }

  /** The first of `stages` whose status is active. */
  function FindActive(p: Option<OodaSnapshot>, stages: seq<Stage>): (r: Option<nat>)
    ensures r.Some? ==> r.value < |stages| && GetStageStatus(p, stages[r.value]) == Active
    ensures r.Some? ==> forall j :: 0 <= j < r.value ==> GetStageStatus(p, stages[j]) != Active
    ensures r.None? ==> forall j :: 0 <= j < |stages| ==> GetStageStatus(p, stages[j]) != Active
  {
    if |stages| == 0 then None
    else if GetStageStatus(p, stages[0]) == Active then Some(0)
    else match FindActive(p, stages[1..])
      case None => None
      case Some(i) => Some(i + 1)
  }

  /**
   * `currentStage`: the first stage, in observe, orient, decide, act order,
   * that is active; none when no stage is.
   */
  function CurrentStage(p: Option<OodaSnapshot>): (r: Option<Stage>)
    ensures r.Some? ==> GetStageStatus(p, r.value) == Active
    ensures r.Some? ==> forall s :: StageIndex(s) < StageIndex(r.value) ==> GetStageStatus(p, s) != Active
    ensures r.None? ==> forall s :: GetStageStatus(p, s) != Active
  {
    match FindActive(p, Stages)
    case None => None
    case Some(i) => Some(Stages[i])
  }

  /** The panel's current stage is the backend's first active index, read as a stage. */
  lemma CurrentStageIsFirstActive(p: OodaSnapshot)
    ensures CurrentStage(Some(p)) ==
              match FirstWith(StatusVector(p), Active)
              case None => None
              case Some(i) => Some(Stages[i])
  {
    var v := StatusVector(p);
    match FirstWith(v, Active)
    case None =>
      assert forall s :: GetStageStatus(Some(p), s) == v[StageIndex(s)];
    case Some(i) =>
      var c := CurrentStage(Some(p));
      assert v[i] == Active && GetStageStatus(Some(p), Stages[i]) == Active;
      assert c.Some?;
      assert StageIndex(Stages[i]) == i;
      assert StageIndex(c.value) == i by {
        assert GetStageStatus(Some(p), c.value) == v[StageIndex(c.value)];
      }
  }

  /**
   * On a well-formed process the stage shown in progress is the one right
   * after the completed ones, if it is active.
   */
  lemma CurrentStageFollowsCompleted(p: OodaSnapshot)
    requires WellFormed(StatusVector(p))
    ensures Done(StatusVector(p)) < 4 && StatusVector(p)[Done(StatusVector(p))] == Active ==>
              CurrentStage(Some(p)) == Some(Stages[Done(StatusVector(p))])
    ensures Done(StatusVector(p)) == 4 ==> CurrentStage(Some(p)).None?
  {
    var v := StatusVector(p);
    CurrentStageIsFirstActive(p);
    if Done(v) < 4 && v[Done(v)] == Active {
      assert FirstWith(v, Active) == Some(Done(v));
    } else if Done(v) == 4 {
      assert FirstWith(v, Active).None?;
    }
  }

  /** `getChainOfThought`: the decide stage's reasoning, or nothing. */
  function ChainOfThought(p: Option<OodaSnapshot>): (r: seq<Line>)
    ensures p.None? || p.value.chain.None? ==> r == []
    ensures p.Some? && p.value.chain.Some? ==> r == p.value.chain.value
  {
    if p.None? then [] else p.value.chain.GetOr([])
  }

  /** The chain of thought as displayed: every step with its number, counting from 1. */
  function NumberedThoughts(p: Option<OodaSnapshot>): (r: seq<(nat, Line)>)
    ensures |r| == |ChainOfThought(p)|
    ensures forall i :: 0 <= i < |r| ==> r[i] == (i + 1, ChainOfThought(p)[i])
  {
    var chain := ChainOfThought(p);
    seq(|chain|, i requires 0 <= i < |chain| => (i + 1, chain[i]))
  }

  /**
   * The connectors drawn after the first three stages; a connector is marked
   * complete when the stage before it is.
   */
  function Connectors(p: Option<OodaSnapshot>): (r: seq<bool>)
    ensures |r| == 3
    ensures forall i :: 0 <= i < 3 ==> (r[i] <==> GetStageStatus(p, Stages[i]) == Complete)
  {
    [GetStageStatus(p, Observe) == Complete, GetStageStatus(p, Orient) == Complete,
     GetStageStatus(p, Decide) == Complete]
  }

  /**
   * On a well-formed process the complete connectors are exactly the first
   * ones, as many as the completed stages (at most three).
   */
  lemma ConnectorsFollowProgress(p: OodaSnapshot)
    requires WellFormed(StatusVector(p))
    ensures forall i :: 0 <= i < 3 ==> (Connectors(Some(p))[i] <==> i < Done(StatusVector(p)))
  {
    var v := StatusVector(p);
    forall i | 0 <= i < 3
      ensures Connectors(Some(p))[i] <==> i < Done(v)
    {
      assert GetStageStatus(Some(p), Stages[i]) == v[i];
      if i >= Done(v) {
        assert v[Done(v)] != Complete;
        assert i == Done(v) || v[i] == Pending;
      }
    }
  }

  /** The "waiting" placeholder shows only when there is neither an agent nor a process. */
  predicate ShowEmpty(agent: Option<AgentView>, p: Option<OodaSnapshot>) {
    agent.None? && p.None?
  }

  /** Whenever the placeholder shows, every stage reads pending and there is nothing else to show. */
  lemma EmptyPanelShowsNothing(agent: Option<AgentView>, p: Option<OodaSnapshot>)
    requires ShowEmpty(agent, p)
    ensures forall s :: GetStageStatus(p, s) == Pending
    ensures CurrentStage(p).None? && ChainOfThought(p) == []
    ensures forall i :: 0 <= i < 3 ==> !Connectors(p)[i]
  {
  }
}
