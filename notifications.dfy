/**
 * The header's notification list and demo buttons
 * (frontend/src/components/layout/Header.jsx): a list that only grows at the
 * front or is cleared, an unread count, and the round-robin scenario index of
 * the demo-signal button. Every signal body the buttons send to the backend
 * is recorded in `posted`, whether or not the request succeeded.
 */
module Notifications {
  import opened Outcomes
  import opened Text
  import opened Views

  /** The kind of a notification, which picks its icon. */
  datatype Category = CriticalNote | WarningNote | InfoNote | HilNote

  function CategoryName(c: Category): string {
    match c
    case CriticalNote => "critical"
    case WarningNote => "warning"
    case InfoNote => "info"
    case HilNote => "hil"
  }

  /** The title of a notification: the four initial ones and the three the buttons push. */
  datatype NoteTitle =
    | HighLatency | MigrationDrift | BackupCompleted | SchemaApproval
    | NewSignal(sigType: string)
    | SimulationUnderway(scenario: string)
    | ChaosInjected

  function RenderTitle(t: NoteTitle): string {
    match t
    case HighLatency => "High latency on Payment Gateway"
    case MigrationDrift => "Migration Drift Detected"
    case BackupCompleted => "Daily Backup Completed"
    case SchemaApproval => "New HIL Request: Schema Approval"
    case NewSignal(sigType) => "New Signal: " + (if sigType == "" then "System Event" else ReplaceUnderscores(sigType))
    case SimulationUnderway(scenario) => "CRITICAL: Simulation Underway - " + scenario
    case ChaosInjected => "⚠️ CHAOS MODE: 6 Critical Signals Injected"
  }

  datatype Notification = Notification(id: string, category: Category, title: NoteTitle, time: string, read: bool)

  /** A signal body the demo buttons post; its metadata is not modelled. */
  datatype Scenario = Scenario(sigType: string, severity: string, source: string, endpoint: string)

  const DemoScenarios: seq<Scenario> := [
    Scenario("404_SPIKE_DETECTED", "CRITICAL", "Shopify_webhook", "/api/v1/checkout/payment"),
    Scenario("STRIPE_LATENCY_HIGH", "WARN", "PaymentGateway", "/api/v1/payments/process"),
    Scenario("TOKEN_INVALID", "ERROR", "AuthService", "/api/v1/auth/verify"),
    Scenario("INVENTORY_SYNC_FAILED", "CRITICAL", "InventoryService", "/api/v1/inventory/sync"),
    Scenario("CART_ABANDONMENT_SPIKE", "WARN", "AnalyticsEngine", "/api/v1/cart/status"),
    Scenario("DB_SCHEMA_CORRUPTION", "CRITICAL", "DatabaseGuard", "/internal/db/migration")]

  /** Chaos mode draws from the demo scenarios and ten more. */
  const ChaosScenarios: seq<Scenario> := DemoScenarios + [
    Scenario("REDIS_SKEW_DETECTED", "WARN", "CacheLayer", "/internal/cache/shards"),
    Scenario("DNS_RESOLUTION_SLOW", "WARN", "NetworkMesh", "n/a"),
    Scenario("MEMORY_LEAK_HOTSPOT", "CRITICAL", "K8s_Monitor", "pod/payment-service-v34"),
    Scenario("LLM_TOKEN_LIMIT", "ERROR", "AI_Gateway", "/api/v1/ai/generate"),
    Scenario("S3_BUCKET_PERM_OPEN", "CRITICAL", "SecurityScanner", "s3://user-documents"),
    Scenario("API_RATE_LIMIT_BREACH", "WARN", "Gateway", "/api/partner/sync"),
    Scenario("PROMETHEUS_TARGET_DOWN", "ERROR", "Observability", "scrape/metrics"),
    Scenario("DEADLOCK_DETECTED", "CRITICAL", "DatabaseMaster", "postgres://primary"),
    Scenario("SSL_CERT_24H_EXPIRY", "WARN", "CertManager", "api.healflow.io"),
    Scenario("KAFKA_LAG_SPIKE", "ERROR", "EventStream", "topic/order_events")]

  const InitialNotifications: seq<Notification> := [
    Notification("n1", CriticalNote, HighLatency, "2 mins ago", false),
    Notification("n2", WarningNote, MigrationDrift, "15 mins ago", false),
    Notification("n3", InfoNote, BackupCompleted, "1 hour ago", true),
    Notification("n4", HilNote, SchemaApproval, "Just now", false)]

  /** The number of unread notifications. */
  function Unread(ns: seq<Notification>): (n: nat)
    ensures n <= |ns|
    ensures n == 0 <==> forall i :: 0 <= i < |ns| ==> ns[i].read
  {
    if |ns| == 0 then 0 else (if ns[0].read then 0 else 1) + Unread(ns[1..])
  }

  /** The category of a signal's notification: only CRITICAL and WARN have their own. */
  function SignalCategory(severity: string): (c: Category)
    ensures c == CriticalNote <==> severity == "CRITICAL"
    ensures c == WarningNote <==> severity == "WARN"
    ensures c != HilNote
  {
    if severity == "CRITICAL" then CriticalNote else if severity == "WARN" then WarningNote else InfoNote
  }

  /** The notification for a signal the backend returned. */
  function SignalNote(nowMs: nat, s: SignalView): Notification {
    Notification("n_" + NatToString(nowMs), SignalCategory(s.severity), NewSignal(s.sigType), "Just now", false)
  }

  /**
   * A signal's title names its type with spaces for underscores, and
   * "System Event" when it has none.
   */
  lemma SignalTitle(sigType: string)
    ensures var t := RenderTitle(NewSignal(sigType));
            StartsWith(t, "New Signal: ")
            && (sigType == "" ==> t[12..] == "System Event")
            && (sigType != "" ==>
                  (|t[12..]| == |sigType| && '_' !in t[12..]
                   && forall i :: 0 <= i < |sigType| && sigType[i] != '_' ==> t[12 + i] == sigType[i]))
  {
    var t := RenderTitle(NewSignal(sigType));
    if sigType != "" {
      assert t[12..] == ReplaceUnderscores(sigType);
    }
  }

  /** The demo table holds six scenarios. */
  lemma DemoScenarioCount()
    ensures |DemoScenarios| == 6
  {
  }

  /** The scenario index after `k` presses of the demo button from index `i`. */
  function Advance(i: nat, k: nat): nat {
    if k == 0 then i else (Advance(i, k - 1) + 1) % 6
  }

  /** The scenarios `k` presses post from index `i`, in order. */
  function Rotation(i: nat, k: nat): (r: seq<Scenario>)
    requires i < 6
    ensures |r| == k
  {
    DemoScenarioCount();
    if k == 0 then [] else Rotation(i, k - 1) + [DemoScenarios[Advance(i, k - 1)]]
  }

  /** The index moves round the six scenarios: after k presses it is (i + k) mod 6. */
  lemma {:induction false} AdvanceIsModular(i: nat, k: nat)
    requires i < 6
    ensures Advance(i, k) == (i + k) % 6
  {
    if k > 0 {
      AdvanceIsModular(i, k - 1);
    }
  }

  /** The scenario indices `k` presses start from, in order. */
  function Visits(i: nat, k: nat): (v: seq<nat>)
    ensures |v| == k
  {
    if k == 0 then [] else Visits(i, k - 1) + [Advance(i, k - 1)]
  }

  lemma {:induction false} VisitsAt(i: nat, k: nat, j: nat)
    requires j < k
    ensures Visits(i, k)[j] == Advance(i, j)
  {
    if j < k - 1 {
      VisitsAt(i, k - 1, j);
    }
  }

  /**
   * Six presses, from any index, come back to it and visit each of the six
   * scenario indices exactly once.
   */
  lemma SixPressesVisitEachOnce(i: nat)
    requires i < 6
    ensures Advance(i, 6) == i
    ensures forall x :: 0 <= x < 6 ==> x in Visits(i, 6)
    ensures forall j1, j2 :: 0 <= j1 < j2 < 6 ==> Visits(i, 6)[j1] != Visits(i, 6)[j2]
  {
    AdvanceIsModular(i, 6);
    WrapIsMod(i + 6);
    var v := Visits(i, 6);
    forall j | 0 <= j < 6 ensures v[j] == Wrap(i + j) {
      VisitAfter(i, 6, j);
    }
    forall x | 0 <= x < 6 ensures x in v {
      var j := if x >= i then x - i else x + 6 - i;
      assert v[j] == x;
    }
  }

  lemma VisitAfter(i: nat, k: nat, j: nat)
    requires i < 6 && j < k <= 6
    ensures Visits(i, k)[j] == Wrap(i + j)
  {
    VisitsAt(i, k, j);
    AdvanceIsModular(i, j);
    WrapIsMod(i + j);
  }

  /** One subtraction of six: `n % 6` for `n < 12`. */
  function Wrap(n: nat): nat {
    if n < 6 then n else n - 6
  }

  lemma WrapIsMod(n: nat)
    requires n < 12
    ensures n % 6 == Wrap(n)
  {
  }

  /** The j-th of the posted scenarios is the one at the index the j-th press started from. */
  lemma {:induction false} RotationAt(i: nat, k: nat, j: nat)
    requires i < 6 && j < k
    ensures Rotation(i, k)[j] == DemoScenarios[Advance(i, j)]
  {
    if j < k - 1 {
      RotationAt(i, k - 1, j);
    }
  }

  class NotificationCenter {
    var notifications: seq<Notification>
    var scenarioIndex: nat
    var selectedSimulation: string
    var simulationOpen: bool
    /** The signal bodies sent to the backend, oldest first, failed requests included. */
    var posted: seq<Scenario>

    ghost predicate Valid()
      reads this
    {
      scenarioIndex < 6
    }

    function UnreadCount(): nat
      reads this
    {
      Unread(notifications)
    }

    constructor()
      ensures Valid() && scenarioIndex == 0 && notifications == InitialNotifications
      ensures UnreadCount() == 3
      ensures selectedSimulation == "404_SPIKE_DETECTED" && !simulationOpen && posted == []
    {
      notifications := InitialNotifications;
      scenarioIndex := 0;
      selectedSimulation := "404_SPIKE_DETECTED";
      simulationOpen := false;
      posted := [];
      assert InitialNotifications[1..][1..][1..][1..] == [];
    }

    /** Clears the list, so nothing is left unread. */
    method MarkAllRead()
      modifies this
      ensures notifications == [] && UnreadCount() == 0
      ensures scenarioIndex == old(scenarioIndex) && posted == old(posted)
      ensures selectedSimulation == old(selectedSimulation) && simulationOpen == old(simulationOpen)
    {
      notifications := [];
    }

    /** Puts an unread notification at the front; the rest follow unchanged. */
    method Push(n: Notification)
      requires !n.read
      modifies this
      ensures notifications == [n] + old(notifications)
      ensures UnreadCount() == old(UnreadCount()) + 1
      ensures scenarioIndex == old(scenarioIndex) && posted == old(posted)
      ensures selectedSimulation == old(selectedSimulation) && simulationOpen == old(simulationOpen)
    {
      notifications := [n] + notifications;
      assert notifications[1..] == old(notifications);
    }

    /**
     * `handleInjectDemo`: posts the current scenario and moves the index on;
     * when a response came back (`None` when the request or its decoding
     * failed), notifies about it and hands it on to the dashboard.
     */
    method InjectDemo(nowMs: nat, response: Option<SignalView>) returns (forwarded: Option<SignalView>)
      requires Valid()
      modifies this
      ensures Valid() && scenarioIndex == Advance(old(scenarioIndex), 1)
      ensures posted == old(posted) + Rotation(old(scenarioIndex), 1)
      ensures posted == old(posted) + [DemoScenarios[old(scenarioIndex)]]
      ensures response.Some? ==> notifications == [SignalNote(nowMs, response.value)] + old(notifications)
                                 && UnreadCount() == old(UnreadCount()) + 1
      ensures response.None? ==> notifications == old(notifications)
      ensures forwarded == response
      ensures selectedSimulation == old(selectedSimulation) && simulationOpen == old(simulationOpen)
    {
      DemoScenarioCount();
      var scenario := DemoScenarios[scenarioIndex];
      scenarioIndex := (scenarioIndex + 1) % |DemoScenarios|;
      posted := posted + [scenario];
      forwarded := None;
      if response.Some? {
        Push(SignalNote(nowMs, response.value));
        forwarded := response;
      }
    }

    method SelectSimulation(value: string)
      modifies this
      ensures selectedSimulation == value
      ensures notifications == old(notifications) && scenarioIndex == old(scenarioIndex)
      ensures posted == old(posted) && simulationOpen == old(simulationOpen)
    {
      selectedSimulation := value;
    }

    /**
     * `handleTriggerSimulation`: `result` is `None` when the simulation call
     * failed, else the signal it reported, if any. On success a critical
     * notification is pushed, the signal handed on, and the dropdown closed.
     */
    method TriggerSimulation(nowMs: nat, result: Option<Option<SignalView>>) returns (forwarded: Option<SignalView>)
      modifies this
      ensures result.Some? ==>
                notifications == [Notification("sim_" + NatToString(nowMs), CriticalNote,
                                               SimulationUnderway(old(selectedSimulation)), "Just now", false)]
                                 + old(notifications)
                && forwarded == result.value && !simulationOpen
      ensures result.None? ==> notifications == old(notifications) && forwarded == None
                               && simulationOpen == old(simulationOpen)
      ensures scenarioIndex == old(scenarioIndex) && posted == old(posted)
      ensures selectedSimulation == old(selectedSimulation)
    {
      forwarded := None;
      if result.Some? {
        Push(Notification("sim_" + NatToString(nowMs), CriticalNote, SimulationUnderway(selectedSimulation), "Just now", false));
        forwarded := result.value;
        simulationOpen := false;
      }
    }

    /**
     * `handleInjectMultiple`: posts six scenarios drawn by `picks`; `failedAt`
     * is the first post that failed, if one did, which ends the run after
     * that attempt. Then
     * `latest` is the newest signal read back (`None` when that read failed,
     * `Some(None)` when it held none); a read that succeeded pushes one chaos
     * notification.
     */
    method InjectMultiple(nowMs: nat, picks: seq<nat>, failedAt: Option<nat>, latest: Option<Option<SignalView>>)
      returns (forwarded: Option<SignalView>)
      requires |picks| == 6 && forall i :: 0 <= i < 6 ==> picks[i] < |ChaosScenarios|
      modifies this
      ensures var sent := if failedAt.Some? && failedAt.value < 6 then failedAt.value + 1 else 6;
              |posted| == |old(posted)| + sent && posted[..|old(posted)|] == old(posted)
              && forall i :: 0 <= i < sent ==> posted[|old(posted)| + i] == ChaosScenarios[picks[i]]
      ensures (failedAt.None? || failedAt.value >= 6) && latest.Some? ==>
                notifications == [Notification("chaos_" + NatToString(nowMs), CriticalNote, ChaosInjected, "Just now", false)]
                                 + old(notifications)
                && forwarded == latest.value
      ensures !((failedAt.None? || failedAt.value >= 6) && latest.Some?) ==>
                notifications == old(notifications) && forwarded == None
      ensures scenarioIndex == old(scenarioIndex)
      ensures selectedSimulation == old(selectedSimulation) && simulationOpen == old(simulationOpen)
    {
      forwarded := None;
      var i := 0;
      while i < 6
        invariant 0 <= i <= 6
        invariant failedAt.Some? ==> i <= failedAt.value
        invariant |posted| == |old(posted)| + i && posted[..|old(posted)|] == old(posted)
        invariant forall j :: 0 <= j < i ==> posted[|old(posted)| + j] == ChaosScenarios[picks[j]]
        invariant notifications == old(notifications)
        invariant scenarioIndex == old(scenarioIndex)
        invariant selectedSimulation == old(selectedSimulation) && simulationOpen == old(simulationOpen)
      {
        posted := posted + [ChaosScenarios[picks[i]]];
        if failedAt == Some(i) {
          return;
        }
        i := i + 1;
      }
      if latest.None? {
        return;
      }
      Push(Notification("chaos_" + NatToString(nowMs), CriticalNote, ChaosInjected, "Just now", false));
      forwarded := latest.value;
    }
  }
}
