/**
 * The fixed sentences that the backend fallback and the dashboard demo write
 * into an OODA process, some with a value filled in. Each sentence is named
 * once here and the rest of the model refers to it by name; `Render` spells
 * it out as the source does.
 */
module Messages {

  datatype Line =
    // backend fallback, observe
    | DetectedSignal(severity: string, sigType: string)
    | SourceOf(source: string)
    | EndpointAffected(endpoint: string)
    | AnalyzingHistory
    | CorrelatingChanges
    // backend fallback, orient
    | PotentialIssue(sigType: string)
    | SimilarPatternSeen
    | MigrationCorrelation
    // backend fallback, decide
    | SpikeFrom(endpoint: string)
    | SchemaComparison
    | HeadersHypothesis
    | RerouteDecision
    | AwaitingApproval
    | SessionFixWithInjection
    // backend fallback and dashboard demo, act
    | UpdateSessionMapping
    | EnableTokenInjection
    | DeployLegacyFix
    // dashboard demo
    | DemoSpike
    | DemoSchemaComparison
    | DemoMissingMapping
    | DemoHypothesis
    | DemoDropRecreate
    | DemoRiskHigh
    | DemoCorruptionContext
    | DemoIssueContext
    | RecreateLegacySession
    | ApplySessionMappingFix
    | RecreatedViaMigration
    | VerifiedIntegrity

  function Render(l: Line): string {
    match l
    case DetectedSignal(severity, sigType) => "Detected " + severity + " signal: " + sigType
    case SourceOf(source) => "Source: " + source
    case EndpointAffected(endpoint) => "Endpoint affected: " + endpoint
    case AnalyzingHistory => "Analyzing pattern against historical data"
    case CorrelatingChanges => "Correlating with recent system changes"
    case PotentialIssue(sigType) =>
      "Signal " + sigType + " indicates potential system issue. Analyzing impact on checkout flow and revenue."
    case SimilarPatternSeen => "Similar pattern observed 3 days ago"
    case MigrationCorrelation => "Migration phase correlation detected"
    case SpikeFrom(endpoint) => "Detecting abnormal spike in responses from " + endpoint + "."
    case SchemaComparison =>
      "Comparing current log pattern with migration schema v2.1. Identification: Missing legacy session mapping."
    case HeadersHypothesis => "Hypothesis: API Gateway middleware is dropping headers from legacy session tokens."
    case RerouteDecision => "Proposed Decision: Re-route traffic through Legacy-Bridge node and inject token-fix-script."
    case AwaitingApproval => "Waiting for human approval for High-Risk action (Revenue at risk)..."
    case SessionFixWithInjection => "Apply session mapping fix and enable token injection"
    case UpdateSessionMapping => "Update session_mapping to strict_legacy_v2"
    case EnableTokenInjection => "Enable token_injection"
    case DeployLegacyFix => "Deploy legacy_fix_v1.js"
    case DemoSpike => "Detecting abnormal spike in responses from gateway."
    case DemoSchemaComparison => "Comparing current log pattern with migration schema v2.1."
    case DemoMissingMapping => "Identification: Missing legacy session mapping."
    case DemoHypothesis => "Hypothesis: API Gateway dropping headers from legacy tokens."
    case DemoDropRecreate => "Proposed Action: DROP and RECREATE legacy_session table."
    case DemoRiskHigh => "RISK ASSESSMENT: HIGH - Requires Human Approval."
    case DemoCorruptionContext =>
      "CRITICAL: Data corruption detected in session table. Immediate intervention required."
    case DemoIssueContext => "Signal indicates potential system issue affecting checkout flow."
    case RecreateLegacySession => "Recreate legacy_session table"
    case ApplySessionMappingFix => "Apply session mapping fix"
    case RecreatedViaMigration => "Recreated legacy_session table via Migration v2.1.4"
    case VerifiedIntegrity => "Verified table integrity: OK"
  }
}
