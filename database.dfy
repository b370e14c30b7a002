/**
 * The backend store (backend/database.py) with SQLite replaced by in-memory
 * tables: each table is a sequence of rows in insertion order, except OODA
 * processes, which are only ever looked up by id and live in a map.
 * Timestamps are whole seconds; the ISO-8601 strings the source stores and
 * compares are ordered the same way.
 */
module Database {
  import opened Outcomes
  import opened Ooda
  import opened Text
  import opened Messages
  import Ordering

  /** `generate_id(prefix)`: the prefix followed by the first 12 hex digits of a fresh uuid. */
  function GenerateId(prefix: string, uuidHex: string): (id: string)
    ensures StartsWith(id, prefix)
    ensures id[|prefix|..] <= uuidHex
    ensures |id| == |prefix| + (if |uuidHex| < 12 then |uuidHex| else 12)
  {
    prefix + (if |uuidHex| < 12 then uuidHex else uuidHex[..12])
  }

  // ---------------------------------------------------------------- rows

  datatype SignalRecord = SignalRecord(
    id: string, timestamp: int, severity: string, sigType: string, source: string,
    endpoint: Option<string>, merchantId: Option<string>, agentId: Option<string>,
    status: string)

  datatype MerchantRecord = MerchantRecord(id: string, name: string, tier: string, migrationPhase: string)

  /** A signal row of `signals s LEFT JOIN merchants m ON s.merchant_id = m.id`. */
  datatype JoinedRow = JoinedRow(signal: SignalRecord, merchantTier: Option<string>, migrationPhase: Option<string>)

  datatype AgentRecord = AgentRecord(
    id: string, name: string, status: string,
    taskSignal: Option<string>, taskStage: Option<Stage>, progress: int)

  datatype ProcessRecord = ProcessRecord(
    id: string, agentId: string, signalId: string,
    statuses: seq<StageStatus>,
    findings: seq<Line>, context: Option<Line>, related: seq<Line>,
    chain: seq<Line>, solution: Option<Solution>, actions: seq<ActionItem>,
    completed: bool)

  datatype Resolution = Resolution(action: string, resolvedBy: string, notes: Option<string>)

  datatype HilRecord = HilRecord(
    id: string, agentId: Option<string>, signalId: Option<string>, processId: Option<string>,
    createdAt: int, priority: string, title: Option<string>,
    description: Option<string>, rootCause: Option<string>,
    proposedAction: string, metrics: string,
    status: string, expiresAt: int, resolution: Option<Resolution>)

  /** The fields a caller may give `create_signal`; absent ones take the column defaults. */
  datatype SignalData = SignalData(
    severity: Option<string>, sigType: Option<string>, source: Option<string>,
    endpoint: Option<string>, merchantId: Option<string>, agentId: Option<string>,
    status: Option<string>, timestamp: Option<int>)

  /** The fields a caller may give `create_hil_request`. */
  datatype HilData = HilData(
    agentId: Option<string>, signalId: Option<string>, processId: Option<string>,
    priority: Option<string>, title: Option<string>,
    description: Option<string>, rootCause: Option<string>,
    proposedAction: Option<string>, metrics: Option<string>)

  /** `json.dumps({})`: what a missing proposed action or metrics is stored as. */
  const EmptyJson := "{}"

  /** A HIL request expires five minutes (in seconds) after it is created. */
  const HilLifetime := 5 * 60

  ghost predicate DistinctSignalIds(rows: seq<SignalRecord>) {
    forall i, j :: 0 <= i < j < |rows| ==> rows[i].id != rows[j].id
  }

  ghost predicate DistinctAgentIds(rows: seq<AgentRecord>) {
    forall i, j :: 0 <= i < j < |rows| ==> rows[i].id != rows[j].id
  }

  ghost predicate DistinctHilIds(rows: seq<HilRecord>) {
    forall i, j :: 0 <= i < j < |rows| ==> rows[i].id != rows[j].id
  }

  // ---------------------------------------------------------------- lookups

  /** `SELECT * FROM signals WHERE id = ?`. */
  function FindSignal(rows: seq<SignalRecord>, id: string): (r: Option<SignalRecord>)
    ensures r.Some? ==> r.value in rows && r.value.id == id
    ensures r.None? ==> forall s :: s in rows ==> s.id != id
  {
    if |rows| == 0 then None
    else if rows[0].id == id then Some(rows[0])
    else FindSignal(rows[1..], id)
  }

  /** `SELECT * FROM agents WHERE id = ?`. */
  function FindAgent(rows: seq<AgentRecord>, id: string): (r: Option<AgentRecord>)
    ensures r.Some? ==> r.value in rows && r.value.id == id
    ensures r.None? ==> forall a :: a in rows ==> a.id != id
  {
    if |rows| == 0 then None
    else if rows[0].id == id then Some(rows[0])
    else FindAgent(rows[1..], id)
  }

  /** `SELECT * FROM hil_requests WHERE id = ?`. */
  function FindHil(rows: seq<HilRecord>, id: string): (r: Option<HilRecord>)
    ensures r.Some? ==> r.value in rows && r.value.id == id
    ensures r.None? ==> forall h :: h in rows ==> h.id != id
  {
    if |rows| == 0 then None
    else if rows[0].id == id then Some(rows[0])
    else FindHil(rows[1..], id)
  }

  /** `get_all_agents(status)`: the agents whose status is `status` (all of them when it is empty), in table order. */
  function AgentsWithStatus(rows: seq<AgentRecord>, status: string): (r: seq<AgentRecord>)
    ensures |r| <= |rows|
    ensures forall a :: a in r ==> a in rows && (status == "" || a.status == status)
    ensures forall a :: a in rows && (status == "" || a.status == status) ==> a in r
    ensures status == "" ==> r == rows
  {
    if |rows| == 0 then []
    else if status == "" || rows[0].status == status then [rows[0]] + AgentsWithStatus(rows[1..], status)
    else AgentsWithStatus(rows[1..], status)
  }

  /** The first agent the status filter returns is the first agent in the table with that status. */
  lemma {:induction false} FirstWithStatus(rows: seq<AgentRecord>, status: string)
    requires |AgentsWithStatus(rows, status)| > 0
    ensures var a := AgentsWithStatus(rows, status)[0];
            exists k :: 0 <= k < |rows| && rows[k] == a && (status == "" || a.status == status)
                        && forall j :: 0 <= j < k ==> !(status == "" || rows[j].status == status)
  {
    if !(status == "" || rows[0].status == status) {
      FirstWithStatus(rows[1..], status);
      var a := AgentsWithStatus(rows, status)[0];
      var k :| 0 <= k < |rows[1..]| && rows[1..][k] == a && (status == "" || a.status == status)
               && forall j :: 0 <= j < k ==> !(status == "" || rows[1..][j].status == status);
      assert rows[k + 1] == a;
      assert forall j :: 0 < j < k + 1 ==> rows[j] == rows[1..][j - 1];
    } else {
      assert rows[0] == AgentsWithStatus(rows, status)[0];
    }
  }

  // ---------------------------------------------------------------- updates

  /** `UPDATE signals SET status = ? [, agent_id = ?] WHERE id = ?`. */
  function UpdateSignalRows(rows: seq<SignalRecord>, id: string, status: string, agentId: Option<string>): (r: seq<SignalRecord>)
    ensures |r| == |rows|
    ensures forall i :: 0 <= i < |rows| ==>
      r[i] == if rows[i].id == id then rows[i].(status := status, agentId := if agentId.Some? then agentId else rows[i].agentId)
              else rows[i]
  {
    seq(|rows|, i requires 0 <= i < |rows| =>
      if rows[i].id == id then rows[i].(status := status, agentId := if agentId.Some? then agentId else rows[i].agentId)
      else rows[i])
  }

  /** `UPDATE agents SET ... WHERE id = ?`: the row with `a`'s id becomes `a`. */
  function ReplaceAgentRows(rows: seq<AgentRecord>, a: AgentRecord): (r: seq<AgentRecord>)
    ensures |r| == |rows|
    ensures forall i :: 0 <= i < |rows| ==> r[i] == if rows[i].id == a.id then a else rows[i]
  {
    seq(|rows|, i requires 0 <= i < |rows| => if rows[i].id == a.id then a else rows[i])
  }

  /**
   * `resolve_hil_request`: `UPDATE hil_requests SET status = ?, resolution = ? WHERE id = ?`.
   * There is no `AND status = 'pending'`: an already resolved request is overwritten.
   */
  function ResolveHilRows(rows: seq<HilRecord>, id: string, action: string, notes: Option<string>): (r: seq<HilRecord>)
    ensures |r| == |rows|
    ensures forall i :: 0 <= i < |rows| && rows[i].id != id ==> r[i] == rows[i]
    ensures forall i :: 0 <= i < |rows| && rows[i].id == id ==>
      r[i] == rows[i].(status := action, resolution := Some(Resolution(action, "human_operator", notes)))
  {
    seq(|rows|, i requires 0 <= i < |rows| =>
      if rows[i].id == id then rows[i].(status := action, resolution := Some(Resolution(action, "human_operator", notes)))
      else rows[i])
  }

  /**
   * Resolving a request a second time succeeds and simply replaces the first
   * decision: the table ends as if only the second call had been made.
   */
  lemma ResolveTwiceOverwrites(rows: seq<HilRecord>, id: string, a1: string, n1: Option<string>, a2: string, n2: Option<string>)
    ensures ResolveHilRows(ResolveHilRows(rows, id, a1, n1), id, a2, n2) == ResolveHilRows(rows, id, a2, n2)
  {
  }

  /** An approved request, rejected afterwards, reads as rejected: nothing in the table guards the first decision. */
  lemma ApprovedThenRejected(rows: seq<HilRecord>, id: string)
    requires FindHil(rows, id).Some?
    ensures FindHil(ResolveHilRows(ResolveHilRows(rows, id, "approved", None), id, "rejected", None), id).Some?
    ensures FindHil(ResolveHilRows(ResolveHilRows(rows, id, "approved", None), id, "rejected", None), id).value.status == "rejected"
  {
    ResolveTwiceOverwrites(rows, id, "approved", None, "rejected", None);
    FindHilAfterResolve(rows, id, "rejected", None);
  }

  /** After a resolve of an existing id, looking the id up finds the new decision. */
  lemma {:induction false} FindHilAfterResolve(rows: seq<HilRecord>, id: string, action: string, notes: Option<string>)
    requires FindHil(rows, id).Some?
    ensures FindHil(ResolveHilRows(rows, id, action, notes), id)
            == Some(FindHil(rows, id).value.(status := action, resolution := Some(Resolution(action, "human_operator", notes))))
  {
    if rows[0].id != id {
      FindHilAfterResolve(rows[1..], id, action, notes);
      assert ResolveHilRows(rows, id, action, notes)[1..] == ResolveHilRows(rows[1..], id, action, notes);
    }
  }

  /** `get_pending_hil_requests`: the pending rows, newest first. */
  function CreatedAt(h: HilRecord): int {
    h.createdAt
  }

  function PendingRows(rows: seq<HilRecord>): (r: seq<HilRecord>)
    ensures forall h :: h in r ==> h in rows && h.status == "pending"
    ensures forall h :: h in rows && h.status == "pending" ==> h in r
    ensures |r| <= |rows|
  {
    if |rows| == 0 then []
    else (if rows[0].status == "pending" then [rows[0]] else []) + PendingRows(rows[1..])
  }

  function PendingHilRequests(rows: seq<HilRecord>): (r: seq<HilRecord>)
    ensures Ordering.Descending(r, CreatedAt)
    ensures multiset(r) == multiset(PendingRows(rows))
    ensures forall h :: h in r <==> h in rows && h.status == "pending"
  {
    Ordering.SortDescCorrect(PendingRows(rows), CreatedAt);
    var r := Ordering.SortDesc(PendingRows(rows), CreatedAt);
    assert forall h :: h in r <==> h in multiset(PendingRows(rows));
    r
  }

  // ---------------------------------------------------------------- signal query

  /** Query parameters of `get_all_signals`; an empty string or list means "not given". */
  datatype SignalQuery = SignalQuery(
    limit: int, status: string, severity: string, tiers: seq<string>, phase: string, timePeriod: string)

  /** The look-back window of a `time_period`, in seconds; other values add no time condition. */
  function Window(timePeriod: string): (w: Option<int>)
    ensures w.Some? <==> timePeriod in {"24h", "7d", "30d"}
  {
    if timePeriod == "24h" then Some(24 * 3600)
    else if timePeriod == "7d" then Some(7 * 24 * 3600)
    else if timePeriod == "30d" then Some(30 * 24 * 3600)
    else None
  }

  /** `(m.tier IN (...) OR s.severity = "SYSTEM")`; a NULL tier is in no list. */
  predicate TierAllows(r: JoinedRow, tiers: seq<string>) {
    |tiers| == 0 || (r.merchantTier.Some? && r.merchantTier.value in tiers) || r.signal.severity == "SYSTEM"
  }

  /** `(m.migration_phase = ? OR s.severity = "SYSTEM")`, skipped for an empty phase or 'all'. */
  predicate PhaseAllows(r: JoinedRow, phase: string) {
    phase == "" || phase == "all" || r.migrationPhase == Some(phase) || r.signal.severity == "SYSTEM"
  }

  predicate TimeAllows(r: JoinedRow, timePeriod: string, now: int) {
    Window(timePeriod).None? || r.signal.timestamp >= now - Window(timePeriod).value
  }

  /** The WHERE clause that `get_all_signals` builds from its arguments. */
  predicate Matches(r: JoinedRow, q: SignalQuery, now: int) {
    && (q.status == "" || r.signal.status == q.status)
    && (q.severity == "" || r.signal.severity == q.severity)
    && TierAllows(r, q.tiers)
    && PhaseAllows(r, q.phase)
    && TimeAllows(r, q.timePeriod, now)
  }

  /** The rows the WHERE clause keeps, in table order. */
  function Matching(rows: seq<JoinedRow>, q: SignalQuery, now: int): (r: seq<JoinedRow>)
    ensures |r| <= |rows|
  {
    if |rows| == 0 then []
    else Matching(rows[..|rows| - 1], q, now) + (if Matches(rows[|rows| - 1], q, now) then [rows[|rows| - 1]] else [])
  }

  lemma {:induction false} MatchingExactly(rows: seq<JoinedRow>, q: SignalQuery, now: int)
    ensures forall x :: x in Matching(rows, q, now) <==> x in rows && Matches(x, q, now)
  {
    if |rows| > 0 {
      MatchingExactly(rows[..|rows| - 1], q, now);
      assert rows == rows[..|rows| - 1] + [rows[|rows| - 1]];
    }
  }

  function RowTime(r: JoinedRow): int {
    r.signal.timestamp
  }

  /** `LEFT JOIN merchants m ON s.merchant_id = m.id`. */
  function Join(signals: seq<SignalRecord>, merchants: map<string, MerchantRecord>): (r: seq<JoinedRow>)
    ensures |r| == |signals|
    ensures forall i :: 0 <= i < |signals| ==> r[i].signal == signals[i]
    ensures forall i :: 0 <= i < |signals| ==>
      (signals[i].merchantId.Some? && signals[i].merchantId.value in merchants) == r[i].merchantTier.Some?
  {
    seq(|signals|, i requires 0 <= i < |signals| =>
      var mid := signals[i].merchantId;
      if mid.Some? && mid.value in merchants
      then JoinedRow(signals[i], Some(merchants[mid.value].tier), Some(merchants[mid.value].migrationPhase))
      else JoinedRow(signals[i], None, None))
  }

  /** `ORDER BY s.timestamp DESC LIMIT ?`; SQLite reads a negative limit as "no limit". */
  function TakeLimit(s: seq<JoinedRow>, limit: int): (r: seq<JoinedRow>)
    ensures r <= s
    ensures |r| == if 0 <= limit < |s| then limit else |s|
  {
    if 0 <= limit < |s| then s[..limit] else s
  }

  /**
   * `get_all_signals`: the rows that satisfy the filters, newest first, at
   * most `limit` of them; when some are cut off, those kept are the newest.
   */
  method QuerySignals(rows: seq<JoinedRow>, q: SignalQuery, now: int) returns (result: seq<JoinedRow>)
    ensures Ordering.Descending(result, RowTime)
    ensures forall x :: x in result ==> x in rows && Matches(x, q, now)
    ensures multiset(result) <= multiset(Matching(rows, q, now))
    ensures |result| == if 0 <= q.limit < |Matching(rows, q, now)| then q.limit else |Matching(rows, q, now)|
    ensures forall x, y :: x in result && y in multiset(Matching(rows, q, now)) - multiset(result) ==> RowTime(x) >= RowTime(y)
  {
    var kept: seq<JoinedRow> := [];
    var i := 0;
    while i < |rows|
      invariant 0 <= i <= |rows|
      invariant kept == Matching(rows[..i], q, now)
    {
      assert rows[..i + 1][..i] == rows[..i];
      if Matches(rows[i], q, now) {
        kept := kept + [rows[i]];
      }
      i := i + 1;
    }
    assert rows[..i] == rows;
    var sorted := Ordering.SortDesc(kept, RowTime);
    var n := if 0 <= q.limit < |sorted| then q.limit else |sorted|;
    result := sorted[..n];
    QueryResult(rows, q, now, n);
  }

  /** The facts `QuerySignals` promises, about the first `n` sorted matching rows. */
  lemma QueryResult(rows: seq<JoinedRow>, q: SignalQuery, now: int, n: nat)
    requires n <= |Matching(rows, q, now)|
    ensures var top := Ordering.SortDesc(Matching(rows, q, now), RowTime)[..n];
      && Ordering.Descending(top, RowTime)
      && (forall x :: x in top ==> x in rows && Matches(x, q, now))
      && multiset(top) <= multiset(Matching(rows, q, now))
      && (forall x, y :: x in top && y in multiset(Matching(rows, q, now)) - multiset(top) ==> RowTime(x) >= RowTime(y))
  {
    var kept := Matching(rows, q, now);
    var top := Ordering.SortDesc(kept, RowTime)[..n];
    MatchingExactly(rows, q, now);
    NewestFirst(kept, n);
    forall x | x in top ensures x in rows && Matches(x, q, now) {
      assert x in multiset(top);
      assert x in multiset(kept);
    }
  }

  /** The first `n` rows of the sorted rows are a descending selection of the newest ones. */
  lemma NewestFirst(kept: seq<JoinedRow>, n: nat)
    requires n <= |kept|
    ensures var top := Ordering.SortDesc(kept, RowTime)[..n];
      && Ordering.Descending(top, RowTime)
      && multiset(top) <= multiset(kept)
      && (forall x, y :: x in top && y in multiset(kept) - multiset(top) ==> RowTime(x) >= RowTime(y))
  {
    var sorted := Ordering.SortDesc(kept, RowTime);
    Ordering.SortDescCorrect(kept, RowTime);
    Ordering.PrefixHoldsLargest(sorted, n, RowTime);
    Ordering.PrefixLeavesSmaller(sorted, n, RowTime);
  }

  // ---------------------------------------------------------------- metrics

  /** The resolved-signal scope of `get_current_metrics`: its filters plus `s.status = 'resolved'`. */
  function ResolvedQuery(tiers: seq<string>, phase: string, timePeriod: string): SignalQuery {
    SignalQuery(-1, "resolved", "", tiers, phase, timePeriod)
  }

  /** The open-issue scope: the same filters, status neither 'resolved' nor 'processed'. */
  function OpenRows(rows: seq<JoinedRow>, tiers: seq<string>, phase: string, timePeriod: string, now: int): (r: seq<JoinedRow>)
    ensures forall x :: x in r ==> x.signal.status != "resolved" && x.signal.status != "processed"
  {
    if |rows| == 0 then []
    else
      var x := rows[0];
      (if x.signal.status != "resolved" && x.signal.status != "processed"
          && Matches(x, SignalQuery(-1, "", "", tiers, phase, timePeriod), now)
       then [x] else [])
      + OpenRows(rows[1..], tiers, phase, timePeriod, now)
  }

  /** The open rows are exactly the in-scope rows that are neither resolved nor processed. */
  lemma {:induction false} OpenRowsExactly(rows: seq<JoinedRow>, tiers: seq<string>, phase: string, timePeriod: string, now: int)
    ensures forall x :: x in OpenRows(rows, tiers, phase, timePeriod, now) <==>
              x in rows && x.signal.status != "resolved" && x.signal.status != "processed"
              && Matches(x, SignalQuery(-1, "", "", tiers, phase, timePeriod), now)
  {
    if |rows| > 0 {
      OpenRowsExactly(rows[1..], tiers, phase, timePeriod, now);
      assert rows == [rows[0]] + rows[1..];
    }
  }

  /** `count(*) ... GROUP BY s.severity`, read back for one severity. */
  function CountSeverity(rows: seq<JoinedRow>, severity: string): (n: nat)
    ensures n <= |rows|
  {
    if |rows| == 0 then 0
    else (if rows[0].signal.severity == severity then 1 else 0) + CountSeverity(rows[1..], severity)
  }

  /** The auto-resolution condition `agent_id IS NOT NULL OR severity = 'SYSTEM' OR source = 'SystemMonitor'`. */
  predicate AutoResolved(x: JoinedRow) {
    x.signal.agentId.Some? || x.signal.severity == "SYSTEM" || x.signal.source == "SystemMonitor"
  }

  /** How many of `rows` were resolved automatically. */
  function CountAuto(rows: seq<JoinedRow>): (n: nat) {
    if |rows| == 0 then 0 else (if AutoResolved(rows[0]) then 1 else 0) + CountAuto(rows[1..])
  }

  /** The auto-resolved rows are among the resolved rows they were counted from; none at all when none qualifies. */
  lemma {:induction false} CountAutoAtMost(rows: seq<JoinedRow>)
    ensures CountAuto(rows) <= |rows|
    ensures CountAuto(rows) == |rows| <==> forall x :: x in rows ==> AutoResolved(x)
    ensures CountAuto(rows) == 0 <==> forall x :: x in rows ==> !AutoResolved(x)
  {
    if |rows| > 0 {
      CountAutoAtMost(rows[1..]);
      assert rows == [rows[0]] + rows[1..];
    }
  }

  /** A per-signal weight for the four weighted severities (every other severity weighs 0). */
  function SeverityWeight(severity: string, critical: int, error: int, warn: int, system: int): int {
    if severity == "CRITICAL" then critical
    else if severity == "ERROR" then error
    else if severity == "WARN" then warn
    else if severity == "SYSTEM" then system
    else 0
  }

  function SumWeights(rows: seq<JoinedRow>, critical: int, error: int, warn: int, system: int): int {
    if |rows| == 0 then 0
    else SeverityWeight(rows[0].signal.severity, critical, error, warn, system) + SumWeights(rows[1..], critical, error, warn, system)
  }

  /** Weighting the per-severity counts is the same as adding up a weight for each signal. */
  lemma {:induction false} WeightedCounts(rows: seq<JoinedRow>, critical: int, error: int, warn: int, system: int)
    ensures SumWeights(rows, critical, error, warn, system)
         == critical * CountSeverity(rows, "CRITICAL") + error * CountSeverity(rows, "ERROR")
          + warn * CountSeverity(rows, "WARN") + system * CountSeverity(rows, "SYSTEM")
  {
    if |rows| > 0 {
      var rest := rows[1..];
      WeightedCounts(rest, critical, error, warn, system);
      var sev := rows[0].signal.severity;
      var c, e, w, y := CountSeverity(rest, "CRITICAL"), CountSeverity(rest, "ERROR"), CountSeverity(rest, "WARN"), CountSeverity(rest, "SYSTEM");
      var tail := SumWeights(rest, critical, error, warn, system);
      assert tail == critical * c + error * e + warn * w + system * y;
      assert SumWeights(rows, critical, error, warn, system) == SeverityWeight(sev, critical, error, warn, system) + tail;
      if sev == "CRITICAL" {
        assert CountSeverity(rows, "CRITICAL") == c + 1;
        assert CountSeverity(rows, "ERROR") == e && CountSeverity(rows, "WARN") == w && CountSeverity(rows, "SYSTEM") == y;
        Distribute(critical, c);
      } else if sev == "ERROR" {
        assert CountSeverity(rows, "ERROR") == e + 1;
        assert CountSeverity(rows, "CRITICAL") == c && CountSeverity(rows, "WARN") == w && CountSeverity(rows, "SYSTEM") == y;
        Distribute(error, e);
      } else if sev == "WARN" {
        assert CountSeverity(rows, "WARN") == w + 1;
        assert CountSeverity(rows, "CRITICAL") == c && CountSeverity(rows, "ERROR") == e && CountSeverity(rows, "SYSTEM") == y;
        Distribute(warn, w);
      } else if sev == "SYSTEM" {
        assert CountSeverity(rows, "SYSTEM") == y + 1;
        assert CountSeverity(rows, "CRITICAL") == c && CountSeverity(rows, "ERROR") == e && CountSeverity(rows, "WARN") == w;
        Distribute(system, y);
      } else {
        assert CountSeverity(rows, "CRITICAL") == c && CountSeverity(rows, "ERROR") == e;
        assert CountSeverity(rows, "WARN") == w && CountSeverity(rows, "SYSTEM") == y;
      }
    }
  }

  lemma Distribute(k: int, n: int)
    ensures k * (n + 1) == k * n + k
  {
  }

  /** The integer part of what `get_current_metrics` returns. */
  datatype Metrics = Metrics(
    revenueProtected: int, totalIncidents: nat, autoResolved: nat, humanIntervention: int,
    penalty: int, healthScore: int, activeMigrations: nat)

  /** The merchants `SELECT count(*) FROM merchants WHERE migration_phase = 'migration'` counts. */
  function Migrating(merchants: map<string, MerchantRecord>): (ids: set<string>)
    ensures forall id :: id in ids <==> id in merchants && merchants[id].migrationPhase == "migration"
  {
    set id | id in merchants && merchants[id].migrationPhase == "migration"
  }

  /**
   * `get_current_metrics`: revenue protected from the resolved signals in
   * scope, the auto/human split of those signals, and a health score from the
   * open ones: 100 less the penalty, but never below 10. The count of
   * merchants in migration is taken over the whole merchant table, filters or
   * not.
   */
  function CurrentMetrics(rows: seq<JoinedRow>, merchants: map<string, MerchantRecord>,
                          tiers: seq<string>, phase: string, timePeriod: string, now: int): (m: Metrics)
    ensures m.revenueProtected == SumWeights(Matching(rows, ResolvedQuery(tiers, phase, timePeriod), now), 15000, 5000, 1000, 100)
    ensures m.revenueProtected >= 0
    ensures m.totalIncidents == |Matching(rows, ResolvedQuery(tiers, phase, timePeriod), now)|
    ensures m.autoResolved == CountAuto(Matching(rows, ResolvedQuery(tiers, phase, timePeriod), now))
    ensures m.humanIntervention >= 0 && m.autoResolved + m.humanIntervention == m.totalIncidents
    ensures m.penalty == SumWeights(OpenRows(rows, tiers, phase, timePeriod, now), 15, 5, 1, 0)
    ensures m.penalty >= 0
    ensures 10 <= m.healthScore <= 100
    ensures m.healthScore >= 100 - m.penalty && (m.healthScore == 10 || m.healthScore == 100 - m.penalty)
    ensures m.activeMigrations == |Migrating(merchants)| && m.activeMigrations <= |merchants|
    ensures m.healthScore == 100 <==> m.penalty == 0
  {
    var resolved := Matching(rows, ResolvedQuery(tiers, phase, timePeriod), now);
    var open := OpenRows(rows, tiers, phase, timePeriod, now);
    var revenue := CountSeverity(resolved, "CRITICAL") * 15000 + CountSeverity(resolved, "ERROR") * 5000
                 + CountSeverity(resolved, "WARN") * 1000 + CountSeverity(resolved, "SYSTEM") * 100;
    var total := |resolved|;
    var auto := CountAuto(resolved);
    var penalty := CountSeverity(open, "CRITICAL") * 15 + CountSeverity(open, "ERROR") * 5 + CountSeverity(open, "WARN") * 1;
    WeightedCounts(resolved, 15000, 5000, 1000, 100);
    WeightedCounts(open, 15, 5, 1, 0);
    CountAutoAtMost(resolved);
    MigratingAtMost(merchants);
    Metrics(revenue, total, auto, total - auto, penalty, if 100 - penalty > 10 then 100 - penalty else 10,
            |Migrating(merchants)|)
  }

  /** No more merchants are in migration than there are merchants. */
  lemma MigratingAtMost(merchants: map<string, MerchantRecord>)
    ensures |Migrating(merchants)| <= |merchants|
  {
    assert Migrating(merchants) <= merchants.Keys;
    SubsetCard(Migrating(merchants), merchants.Keys);
  }

  lemma {:induction false} SubsetCard(a: set<string>, b: set<string>)
    requires a <= b
    ensures |a| <= |b|
    decreases b
  {
    if a != {} {
      var x :| x in a;
      SubsetCard(a - {x}, b - {x});
    }
  }

  /**
   * The migration count ignores every filter: the tier branch of
   * `get_current_metrics` runs the same unfiltered count as the other.
   */
  lemma {:induction false} ActiveMigrationsIgnoreFilters(
    rows: seq<JoinedRow>, rows': seq<JoinedRow>, merchants: map<string, MerchantRecord>,
    tiers: seq<string>, tiers': seq<string>, phase: string, phase': string,
    timePeriod: string, timePeriod': string, now: int, now': int)
    ensures CurrentMetrics(rows, merchants, tiers, phase, timePeriod, now).activeMigrations
         == CurrentMetrics(rows', merchants, tiers', phase', timePeriod', now').activeMigrations
  {
  }

  // ---------------------------------------------------------------- resolution stats

  const DayLabels: seq<string> := ["MON", "TUE", "WED", "THU", "FRI", "SAT", "SUN"]

  datatype DayStat = DayStat(period: string, autoResolved: int, humanIntervention: int, total: int)

  function AutoOnDay(i: nat): int {
    15 + i * 3 + (i % 3) * 2
  }

  function HumanOnDay(i: nat): int {
    3 + i % 2
  }

  /** The row for day `i`: its weekday label, the two demo counts and their sum. */
  function DayRow(i: nat): DayStat {
    DayStat(DayLabels[i % 7], AutoOnDay(i), HumanOnDay(i), AutoOnDay(i) + HumanOnDay(i))
  }

  function SumAuto(stats: seq<DayStat>): int {
    if |stats| == 0 then 0 else SumAuto(stats[..|stats| - 1]) + stats[|stats| - 1].autoResolved
  }

  function SumHuman(stats: seq<DayStat>): int {
    if |stats| == 0 then 0 else SumHuman(stats[..|stats| - 1]) + stats[|stats| - 1].humanIntervention
  }

  datatype StatsReport = StatsReport(stats: seq<DayStat>, totalAuto: int, totalHuman: int)

  /** The failure of the overall ratio `total_auto / (total_auto + total_human)` when no day was counted. */
  const ZeroDivision := "division by zero"

  /**
   * `get_resolution_stats(days)`: one row per day with the demo formulas,
   * labelled by weekday in turn, and a summary holding the column sums. With
   * no day at all the overall ratio divides by zero, so the call fails.
   */
  method ResolutionStats(days: int) returns (r: Result<StatsReport, string>)
    ensures r.Err? <==> days <= 0
    ensures r.Err? ==> r.error == ZeroDivision
    ensures r.Ok? ==> |r.value.stats| == days
    ensures r.Ok? ==> forall i :: 0 <= i < |r.value.stats| ==> r.value.stats[i] == DayRow(i)
    ensures r.Ok? ==> r.value.totalAuto == SumAuto(r.value.stats) && r.value.totalHuman == SumHuman(r.value.stats)
    ensures r.Ok? ==> r.value.totalAuto + r.value.totalHuman > 0
  {
    var stats, totalAuto, totalHuman := [], 0, 0;
    var i := 0;
    while i < days
      invariant 0 <= i <= (if days > 0 then days else 0)
      invariant |stats| == i
      invariant forall k :: 0 <= k < i ==> stats[k] == DayRow(k)
      invariant totalAuto == SumAuto(stats) && totalHuman == SumHuman(stats)
      invariant totalAuto >= 0 && totalHuman >= 3 * i
    {
      var auto := AutoOnDay(i);
      var human := HumanOnDay(i);
      totalAuto := totalAuto + auto;
      totalHuman := totalHuman + human;
      var before := stats;
      stats := stats + [DayStat(DayLabels[i % 7], auto, human, auto + human)];
      assert stats[..|stats| - 1] == before;
      i := i + 1;
    }
    if totalAuto + totalHuman == 0 {
      return Err(ZeroDivision);
    }
    r := Ok(StatsReport(stats, totalAuto, totalHuman));
  }

  /** Over any rows of the table, the human column sums to three a day plus one every second day. */
  lemma {:induction false} HumanTotalClosedForm(stats: seq<DayStat>)
    requires forall i :: 0 <= i < |stats| ==> stats[i].humanIntervention == HumanOnDay(i)
    ensures SumHuman(stats) == 3 * |stats| + |stats| / 2
  {
    if |stats| > 0 {
      HumanTotalClosedForm(stats[..|stats| - 1]);
    }
  }

  // ---------------------------------------------------------------- the store

  /** The tables the backend reads and writes. */
  class Store {
    var signals: seq<SignalRecord>
    var merchants: map<string, MerchantRecord>
    var agents: seq<AgentRecord>
    var processes: map<string, ProcessRecord>
    var hilRequests: seq<HilRecord>

    /** Primary keys are unique, and every process refers to a stored signal and agent. */
    ghost predicate Valid()
      reads this
    {
      && DistinctSignalIds(signals)
      && DistinctAgentIds(agents)
      && DistinctHilIds(hilRequests)
      && forall pid :: pid in processes ==>
           && processes[pid].id == pid
           && |processes[pid].statuses| == 4
           && FindSignal(signals, processes[pid].signalId).Some?
           && FindAgent(agents, processes[pid].agentId).Some?
    }

    constructor (signals: seq<SignalRecord>, merchants: map<string, MerchantRecord>, agents: seq<AgentRecord>)
      requires DistinctSignalIds(signals) && DistinctAgentIds(agents)
      ensures Valid()
      ensures this.signals == signals && this.merchants == merchants && this.agents == agents
      ensures processes == map[] && hilRequests == []
    {
      this.signals := signals;
      this.merchants := merchants;
      this.agents := agents;
      processes := map[];
      hilRequests := [];
    }

    /** `create_signal`: a new row with column defaults for the fields not given, stamped `now` unless a time is given. */
    method CreateSignal(data: SignalData, uuidHex: string, now: int) returns (s: SignalRecord)
      requires Valid()
      requires FindSignal(signals, GenerateId("sig_", uuidHex)).None?
      modifies this
      ensures Valid()
      ensures s.id == GenerateId("sig_", uuidHex)
      ensures s.timestamp == if data.timestamp.Some? then data.timestamp.value else now
      ensures s.severity == data.severity.GetOr("INFO") && s.sigType == data.sigType.GetOr("UNKNOWN")
      ensures s.source == data.source.GetOr("Unknown") && s.status == data.status.GetOr("pending")
      ensures s.endpoint == data.endpoint && s.merchantId == data.merchantId && s.agentId == data.agentId
      ensures signals == old(signals) + [s]
      ensures merchants == old(merchants) && agents == old(agents)
      ensures processes == old(processes) && hilRequests == old(hilRequests)
    {
      s := SignalRecord(GenerateId("sig_", uuidHex), data.timestamp.GetOr(now), data.severity.GetOr("INFO"), data.sigType.GetOr("UNKNOWN"),
                        data.source.GetOr("Unknown"), data.endpoint, data.merchantId, data.agentId,
                        data.status.GetOr("pending"));
      FindSignalAppend(signals, s);
      signals := signals + [s];
    }

    /** `update_signal(id, {'status': ..., ['agent_id': ...]})`. */
    method UpdateSignal(id: string, status: string, agentId: Option<string>)
      requires Valid()
      modifies this
      ensures Valid()
      ensures signals == UpdateSignalRows(old(signals), id, status, agentId)
      ensures merchants == old(merchants) && agents == old(agents)
      ensures processes == old(processes) && hilRequests == old(hilRequests)
    {
      FindSignalUpdate(signals, id, status, agentId);
      signals := UpdateSignalRows(signals, id, status, agentId);
    }

    /** `update_agent`: the row with the same id takes the new field values. */
    method UpdateAgent(a: AgentRecord)
      requires Valid()
      modifies this
      ensures Valid()
      ensures agents == ReplaceAgentRows(old(agents), a)
      ensures signals == old(signals) && merchants == old(merchants)
      ensures processes == old(processes) && hilRequests == old(hilRequests)
    {
      FindAgentReplace(agents, a);
      agents := ReplaceAgentRows(agents, a);
    }

    /** `create_ooda_process`: observe starts active, the other stages take the column default 'pending'. */
    method CreateOodaProcess(agentId: string, signalId: string, uuidHex: string) returns (p: ProcessRecord)
      requires Valid()
      requires GenerateId("ooda_", uuidHex) !in processes
      requires FindSignal(signals, signalId).Some? && FindAgent(agents, agentId).Some?
      modifies this
      ensures Valid()
      ensures p.id == GenerateId("ooda_", uuidHex) && p.agentId == agentId && p.signalId == signalId
      ensures p.statuses == [Active, Pending, Pending, Pending] && WellFormed(p.statuses)
      ensures p.solution.None? && p.actions == [] && !p.completed
      ensures processes == old(processes)[p.id := p]
      ensures signals == old(signals) && merchants == old(merchants)
      ensures agents == old(agents) && hilRequests == old(hilRequests)
    {
      p := ProcessRecord(GenerateId("ooda_", uuidHex), agentId, signalId, [Active, Pending, Pending, Pending],
                         [], None, [], [], None, [], false);
      processes := processes[p.id := p];
    }

    /** `update_ooda_process`: the process with the same id takes the new field values. */
    method UpdateProcess(p: ProcessRecord)
      requires Valid()
      requires p.id in processes && |p.statuses| == 4
      requires p.signalId == processes[p.id].signalId && p.agentId == processes[p.id].agentId
      modifies this
      ensures Valid()
      ensures processes == old(processes)[p.id := p]
      ensures signals == old(signals) && merchants == old(merchants)
      ensures agents == old(agents) && hilRequests == old(hilRequests)
    {
      processes := processes[p.id := p];
    }

    /**
     * `create_hil_request`: a new pending request with id prefix `hil_`,
     * carrying the caller's fields, priority 'medium' unless given, the JSON
     * of an empty object for a missing proposed action or metrics, and an
     * expiry five minutes after its creation.
     */
    method CreateHilRequest(data: HilData, uuidHex: string, now: int) returns (h: HilRecord)
      requires Valid()
      requires FindHil(hilRequests, GenerateId("hil_", uuidHex)).None?
      modifies this
      ensures Valid()
      ensures h.id == GenerateId("hil_", uuidHex) && StartsWith(h.id, "hil_")
      ensures h.status == "pending" && h.resolution.None? && h.createdAt == now
      ensures h.priority == data.priority.GetOr("medium") && h.title == data.title
      ensures h.agentId == data.agentId && h.signalId == data.signalId && h.processId == data.processId
      ensures h.description == data.description && h.rootCause == data.rootCause
      ensures h.proposedAction == data.proposedAction.GetOr(EmptyJson) && h.metrics == data.metrics.GetOr(EmptyJson)
      ensures h.expiresAt == now + HilLifetime
      ensures hilRequests == old(hilRequests) + [h]
      ensures signals == old(signals) && merchants == old(merchants)
      ensures agents == old(agents) && processes == old(processes)
    {
      h := HilRecord(GenerateId("hil_", uuidHex), data.agentId, data.signalId, data.processId, now,
                     data.priority.GetOr("medium"), data.title, data.description, data.rootCause,
                     data.proposedAction.GetOr(EmptyJson), data.metrics.GetOr(EmptyJson),
                     "pending", now + HilLifetime, None);
      FindHilAppend(hilRequests, h);
      hilRequests := hilRequests + [h];
    }

    /**
     * `resolve_hil_request`: sets status and resolution of the row with this
     * id, whatever its current status, and reads the row back (None when no
     * row has the id).
     */
    method ResolveHilRequest(id: string, action: string, notes: Option<string>) returns (r: Option<HilRecord>)
      requires Valid()
      modifies this
      ensures Valid()
      ensures hilRequests == ResolveHilRows(old(hilRequests), id, action, notes)
      ensures r == FindHil(hilRequests, id)
      ensures r.Some? <==> FindHil(old(hilRequests), id).Some?
      ensures r.Some? ==> r.value.status == action
      ensures signals == old(signals) && merchants == old(merchants)
      ensures agents == old(agents) && processes == old(processes)
    {
      FindHilResolve(hilRequests, id, action, notes);
      hilRequests := ResolveHilRows(hilRequests, id, action, notes);
      r := FindHil(hilRequests, id);
      if FindHil(old(hilRequests), id).Some? {
        FindHilAfterResolve(old(hilRequests), id, action, notes);
      }
    }
  }

  // ---------------------------------------------------------------- frame lemmas for the store

  lemma FindSignalAppend(rows: seq<SignalRecord>, s: SignalRecord)
    requires DistinctSignalIds(rows) && FindSignal(rows, s.id).None?
    ensures DistinctSignalIds(rows + [s])
    ensures forall id :: FindSignal(rows, id).Some? ==> FindSignal(rows + [s], id).Some?
  {
    forall id | FindSignal(rows, id).Some? ensures FindSignal(rows + [s], id).Some? {
      var x := FindSignal(rows, id).value;
    }
  }

  lemma FindSignalUpdate(rows: seq<SignalRecord>, id: string, status: string, agentId: Option<string>)
    requires DistinctSignalIds(rows)
    ensures DistinctSignalIds(UpdateSignalRows(rows, id, status, agentId))
    ensures forall k :: FindSignal(rows, k).Some? ==> FindSignal(UpdateSignalRows(rows, id, status, agentId), k).Some?
  {
    var r := UpdateSignalRows(rows, id, status, agentId);
    forall k | FindSignal(rows, k).Some? ensures FindSignal(r, k).Some? {
      var x := FindSignal(rows, k).value;
      var i :| 0 <= i < |rows| && rows[i] == x;
    }
  }

  lemma FindAgentReplace(rows: seq<AgentRecord>, a: AgentRecord)
    requires DistinctAgentIds(rows)
    ensures DistinctAgentIds(ReplaceAgentRows(rows, a))
    ensures forall k :: FindAgent(rows, k).Some? ==> FindAgent(ReplaceAgentRows(rows, a), k).Some?
  {
    var r := ReplaceAgentRows(rows, a);
    forall k | FindAgent(rows, k).Some? ensures FindAgent(r, k).Some? {
      var x := FindAgent(rows, k).value;
      var i :| 0 <= i < |rows| && rows[i] == x;
    }
  }

  /** After an agent update, looking the agent up finds the new record. */
  lemma {:induction false} FindAgentAfterReplace(rows: seq<AgentRecord>, a: AgentRecord)
    requires FindAgent(rows, a.id).Some?
    ensures FindAgent(ReplaceAgentRows(rows, a), a.id) == Some(a)
  {
    if rows[0].id != a.id {
      FindAgentAfterReplace(rows[1..], a);
      assert ReplaceAgentRows(rows, a)[1..] == ReplaceAgentRows(rows[1..], a);
    }
  }

  /** After a signal update, looking the signal up finds the updated record. */
  lemma {:induction false} FindSignalAfterUpdate(rows: seq<SignalRecord>, id: string, status: string, agentId: Option<string>)
    requires FindSignal(rows, id).Some?
    ensures FindSignal(UpdateSignalRows(rows, id, status, agentId), id)
            == Some(FindSignal(rows, id).value.(status := status,
                      agentId := if agentId.Some? then agentId else FindSignal(rows, id).value.agentId))
  {
    if rows[0].id != id {
      FindSignalAfterUpdate(rows[1..], id, status, agentId);
      assert UpdateSignalRows(rows, id, status, agentId)[1..] == UpdateSignalRows(rows[1..], id, status, agentId);
    }
  }

  lemma FindHilAppend(rows: seq<HilRecord>, h: HilRecord)
    requires DistinctHilIds(rows) && FindHil(rows, h.id).None?
    ensures DistinctHilIds(rows + [h])
  {
  }

  lemma FindHilResolve(rows: seq<HilRecord>, id: string, action: string, notes: Option<string>)
    requires DistinctHilIds(rows)
    ensures DistinctHilIds(ResolveHilRows(rows, id, action, notes))
  {
  }
}
