/**
 * The four OODA stages, their statuses, and the status-vector discipline that
 * both the backend step and the dashboard demo follow: a run of complete
 * stages, then at most one active stage, then pending stages.
 */
module Ooda {
  import opened Outcomes
  import opened Messages

  datatype Stage = Observe | Orient | Decide | Act

  /** The pipeline order observe, orient, decide, act. */
  const Stages: seq<Stage> := [Observe, Orient, Decide, Act]

  function StageIndex(s: Stage): (i: nat)
    ensures i < 4 && Stages[i] == s
  {
    match s
    case Observe => 0
    case Orient => 1
    case Decide => 2
    case Act => 3
  }

  /** The lower-case stage name used as the prefix of `<stage>_status`. */
  function StageName(s: Stage): string {
    match s
    case Observe => "observe"
    case Orient => "orient"
    case Decide => "decide"
    case Act => "act"
  }

  datatype StageStatus = Pending | Active | Complete

  /** pending < active < complete: the order in which a stage moves. */
  function Rank(s: StageStatus): nat {
    match s
    case Pending => 0
    case Active => 1
    case Complete => 2
  }

  /** A proposed remedy, as produced at the end of decide. */
  datatype Solution = Solution(kind: string, description: Line, confidence: int, riskLevel: string)

  /** One action taken at the end of act. */
  datatype ActionItem = ActionItem(kind: string, description: Line)

  /** The number of leading complete stages. */
  function Done(v: seq<StageStatus>): (n: nat)
    ensures n <= |v|
    ensures forall i :: 0 <= i < n ==> v[i] == Complete
    ensures n < |v| ==> v[n] != Complete
  {
    if |v| == 0 || v[0] != Complete then 0 else 1 + Done(v[1..])
  }

  /**
   * Well-formed statuses: four of them, a complete prefix, then at most one
   * active stage (the one right after the prefix), then only pending stages.
   */
  predicate WellFormed(v: seq<StageStatus>) {
    |v| == 4 && forall i :: Done(v) < i < 4 ==> v[i] == Pending
  }

  /** The first index holding status `st`, if any. */
  function FirstWith(v: seq<StageStatus>, st: StageStatus): (r: Option<nat>)
    ensures r.Some? ==> r.value < |v| && v[r.value] == st
    ensures r.Some? ==> forall j :: 0 <= j < r.value ==> v[j] != st
    ensures r.None? ==> forall j :: 0 <= j < |v| ==> v[j] != st
  {
    if |v| == 0 then None
    else if v[0] == st then Some(0)
    else match FirstWith(v[1..], st)
      case None => None
      case Some(i) => Some(i + 1)
  }

  /** The stage a step works on: the first active one, else the first pending one. */
  function CurrentIndex(v: seq<StageStatus>): Option<nat> {
    if FirstWith(v, Active).Some? then FirstWith(v, Active) else FirstWith(v, Pending)
  }

  /**
   * The statuses after one step: the current stage becomes complete and,
   * unless it is the last stage, the stage after it becomes active.
   */
  function StepStatuses(v: seq<StageStatus>): (w: seq<StageStatus>)
    ensures |w| == |v|
  {
    match CurrentIndex(v)
    case None => v
    case Some(i) =>
      if i + 1 < |v| then v[i := Complete][i + 1 := Active] else v[i := Complete]
  }

  /** A well-formed vector has no current stage exactly when every stage is complete. */
  lemma CurrentIndexOfWellFormed(v: seq<StageStatus>)
    requires WellFormed(v)
    ensures CurrentIndex(v).None? <==> Done(v) == 4
    ensures Done(v) < 4 ==> CurrentIndex(v) == Some(Done(v))
  {
    if Done(v) < 4 {
      var d := Done(v);
      if v[d] == Active {
        assert FirstWith(v, Active) == Some(d);
      } else {
        assert v[d] == Pending;
        assert FirstWith(v, Active).None?;
        assert FirstWith(v, Pending) == Some(d);
      }
    }
  }

  /**
   * From a well-formed vector that is not finished, a step completes exactly
   * one more stage and the result is again well-formed; a finished vector is
   * left as it is.
   */
  lemma StepPreservesWellFormed(v: seq<StageStatus>)
    requires WellFormed(v)
    ensures WellFormed(StepStatuses(v))
    ensures Done(v) < 4 ==> Done(StepStatuses(v)) == Done(v) + 1
    ensures Done(v) == 4 ==> StepStatuses(v) == v
  {
    CurrentIndexOfWellFormed(v);
    var d := Done(v);
    if d < 4 {
      var w := StepStatuses(v);
      assert forall i :: 0 <= i <= d ==> w[i] == Complete;
      DoneAtLeast(w, d + 1);
      if d + 1 < 4 {
        assert w[d + 1] == Active;
      }
    }
  }

  /** A vector whose first `k` entries are complete has at least `k` done. */
  lemma DoneAtLeast(v: seq<StageStatus>, k: nat)
    requires k <= |v|
    requires forall i :: 0 <= i < k ==> v[i] == Complete
    ensures Done(v) >= k
  {
    if k > 0 {
      DoneAtLeast(v[1..], k - 1);
    }
  }

  /** On a well-formed vector no stage ever moves backwards. */
  lemma StepIsMonotone(v: seq<StageStatus>)
    requires WellFormed(v)
    ensures forall i :: 0 <= i < 4 ==> Rank(StepStatuses(v)[i]) >= Rank(v[i])
  {
    CurrentIndexOfWellFormed(v);
  }

  /** In a well-formed vector, act is never active before decide is complete. */
  lemma ActWaitsForDecide(v: seq<StageStatus>)
    requires WellFormed(v)
    requires v[3] != Pending
    ensures v[0] == Complete && v[1] == Complete && v[2] == Complete
  {
  }

  /** Four steps take a freshly started process to all four stages complete. */
  lemma FourStepsFinish()
    ensures StepStatuses(StepStatuses(StepStatuses(StepStatuses([Active, Pending, Pending, Pending]))))
            == [Complete, Complete, Complete, Complete]
  {
    var v0 := [Active, Pending, Pending, Pending];
    assert WellFormed(v0) && Done(v0) == 0;
    StepPreservesWellFormed(v0);
    var v1 := StepStatuses(v0);
    StepPreservesWellFormed(v1);
    var v2 := StepStatuses(v1);
    StepPreservesWellFormed(v2);
    var v3 := StepStatuses(v2);
    StepPreservesWellFormed(v3);
    var v4 := StepStatuses(v3);
    assert Done(v4) == 4;
  }
}
