/**
 * The live signal log (frontend/src/components/dashboard/LiveSignalLog.jsx):
 * an "active" and a "resolved" tab over the signals, and the severity
 * classes and labels of each entry.
 */
module SignalLog {
  import opened Outcomes
  import opened Views

  /** The tab a signal belongs to: any status but "resolved" is active. */
  predicate IsActive(s: SignalView) {
    s.status != "resolved"
  }

  /** The signals of one tab, in their original order. */
  function Keep(signals: seq<SignalView>, active: bool): (r: seq<SignalView>)
    ensures |r| <= |signals|
  {
    if |signals| == 0 then []
    else
      var rest := Keep(signals[1..], active);
      if IsActive(signals[0]) == active then [signals[0]] + rest else rest
  }

  /**
   * The filter behind the log: the tab named "active" keeps the unresolved
   * signals, every other tab the resolved ones; no signals at all read as
   * an empty list.
   */
  function Filtered(signals: Option<seq<SignalView>>, filterStatus: string): (r: seq<SignalView>)
    ensures signals.None? ==> r == []
    ensures signals.Some? ==>
              forall s :: s in r <==>
                s in signals.value && (IsActive(s) <==> filterStatus == "active")
  {
    KeepMembers(signals.GetOr([]), filterStatus == "active");
    Keep(signals.GetOr([]), filterStatus == "active")
  }

  /** A tab holds exactly the signals of the list that belong to it. */
  lemma {:induction false} KeepMembers(signals: seq<SignalView>, active: bool)
    ensures forall s :: s in Keep(signals, active) <==> s in signals && IsActive(s) == active
  {
    if |signals| > 0 {
      KeepMembers(signals[1..], active);
      assert signals == [signals[0]] + signals[1..];
    }
  }

  /** Filtering keeps the relative order: it distributes over concatenation. */
  lemma {:induction false} KeepDistributes(a: seq<SignalView>, b: seq<SignalView>, active: bool)
    ensures Keep(a + b, active) == Keep(a, active) + Keep(b, active)
  {
    if |a| > 0 {
      KeepDistributes(a[1..], b, active);
      var ab := a + b;
      assert ab[0] == a[0];
      assert ab[1..] == a[1..] + b;
      if IsActive(a[0]) == active {
        calc {
          Keep(ab, active);
          [a[0]] + Keep(a[1..] + b, active);
          [a[0]] + (Keep(a[1..], active) + Keep(b, active));
          ([a[0]] + Keep(a[1..], active)) + Keep(b, active);
        }
      }
    } else {
      assert a + b == b;
    }
  }

  /** The two tabs split the signals: each signal is in exactly one, as often as in the list. */
  lemma {:induction false} TabsPartition(signals: seq<SignalView>)
    ensures multiset(Keep(signals, true)) + multiset(Keep(signals, false)) == multiset(signals)
    ensures |Keep(signals, true)| + |Keep(signals, false)| == |signals|
  {
    if |signals| > 0 {
      TabsPartition(signals[1..]);
      assert signals == [signals[0]] + signals[1..];
    }
  }

  /** A signal moves from the active to the resolved tab when it is resolved, and nothing else moves. */
  lemma {:induction false} ResolveMovesTabs(signals: seq<SignalView>, k: nat)
    requires k < |signals| && IsActive(signals[k])
    ensures var after := signals[k := signals[k].(status := "resolved")];
            |Keep(after, true)| + 1 == |Keep(signals, true)| &&
            |Keep(after, false)| == |Keep(signals, false)| + 1
  {
    var after := signals[k := signals[k].(status := "resolved")];
    assert signals == signals[..k] + [signals[k]] + signals[k + 1..];
    assert after == signals[..k] + [after[k]] + signals[k + 1..];
    KeepDistributes(signals[..k] + [signals[k]], signals[k + 1..], true);
    KeepDistributes(signals[..k], [signals[k]], true);
    KeepDistributes(signals[..k] + [after[k]], signals[k + 1..], true);
    KeepDistributes(signals[..k], [after[k]], true);
    KeepDistributes(signals[..k] + [signals[k]], signals[k + 1..], false);
    KeepDistributes(signals[..k], [signals[k]], false);
    KeepDistributes(signals[..k] + [after[k]], signals[k + 1..], false);
    KeepDistributes(signals[..k], [after[k]], false);
  }

  /** `getSeverityClass`: the five known severities in lower case, anything else "info". */
  function SeverityClass(severity: string): (r: string)
    ensures r in {"critical", "error", "warn", "info", "system"}
    ensures r == "info" <==> severity !in {"CRITICAL", "ERROR", "WARN", "SYSTEM"}
  {
    if severity == "CRITICAL" then "critical"
    else if severity == "ERROR" then "error"
    else if severity == "WARN" then "warn"
    else if severity == "INFO" then "info"
    else if severity == "SYSTEM" then "system"
    else "info"
  }

  /** The label key for one of the five known severities. */
  function SeverityLabelKey(severity: string): Option<string> {
    if severity == "CRITICAL" then Some("severity_critical")
    else if severity == "ERROR" then Some("severity_error")
    else if severity == "WARN" then Some("severity_warn")
    else if severity == "INFO" then Some("severity_info")
    else if severity == "SYSTEM" then Some("severity_system")
    else None
  }

  /**
   * `getSeverityLabel`: the configured label of a known severity when it is
   * set and non-empty, otherwise the severity text itself.
   */
  function SeverityLabel(severity: string, labels: map<string, string>): (r: string)
    ensures SeverityLabelKey(severity).None? ==> r == severity
    ensures SeverityLabelKey(severity).Some? ==>
              var key := SeverityLabelKey(severity).value;
              (key in labels && labels[key] != "" ==> r == labels[key]) &&
              (r == severity || (key in labels && r == labels[key]))
    ensures r == "" ==> severity == ""
  {
    match SeverityLabelKey(severity)
    case None => severity
    case Some(key) => if key in labels && labels[key] != "" then labels[key] else severity
  }

  /** The severity labels among the built-in defaults: each is the severity itself. */
  const DefaultSeverityLabels: map<string, string> := map[
    "severity_critical" := "CRITICAL", "severity_error" := "ERROR", "severity_warn" := "WARN",
    "severity_info" := "INFO", "severity_system" := "SYSTEM"]

  /** Under the default labels every entry shows its raw severity text. */
  lemma DefaultLabelsShowSeverity(severity: string)
    ensures SeverityLabel(severity, DefaultSeverityLabels) == severity
  {
  }

  /** The badge colour of an entry, chosen from its severity class. */
  function BadgeClass(severity: string): string {
    var c := SeverityClass(severity);
    if c == "critical" || c == "error" then "critical"
    else if c == "warn" then "warning"
    else if c == "system" then "success"
    else "info"
  }

  /** Which severities get which badge: errors look critical, and unknown severities look like INFO. */
  lemma BadgeColours(severity: string)
    ensures BadgeClass(severity) == "critical" <==> severity == "CRITICAL" || severity == "ERROR"
    ensures BadgeClass(severity) == "warning" <==> severity == "WARN"
    ensures BadgeClass(severity) == "success" <==> severity == "SYSTEM"
    ensures BadgeClass(severity) == "info" <==>
              severity !in {"CRITICAL", "ERROR", "WARN", "SYSTEM"}
  {
  }
}
