/**
 * The analysis result (server/app/domain/analysis/schema.py): threats with their severity
 * and status enumerations and defaults, and the report that carries them.
 */
module AnalysisSchema {
  import opened Wrappers

  datatype Severity = Low | Medium | High | Critical

  function SeverityName(s: Severity): string {
    match s
    case Low => "low"
    case Medium => "medium"
    case High => "high"
    case Critical => "critical"
  }

  /** The severity literal validation: exactly the four names are accepted. */
  function ParseSeverity(text: string): (r: Option<Severity>)
    ensures r.Some? ==> SeverityName(r.value) == text
  {
    match text
    case "low" => Some(Low)
    case "medium" => Some(Medium)
    case "high" => Some(High)
    case "critical" => Some(Critical)
    case _ => None
  }

  /** Every severity is accepted under its own name, and only names of severities are accepted. */
  lemma SeverityRoundTrip(s: Severity, text: string)
    ensures ParseSeverity(SeverityName(s)) == Some(s)
    ensures ParseSeverity(text).Some? <==> text in {"low", "medium", "high", "critical"}
  {
  }

  datatype Status = Open | Mitigated | Accepted

  function StatusName(s: Status): string {
    match s
    case Open => "open"
    case Mitigated => "mitigated"
    case Accepted => "accepted"
  }

  function ParseStatus(text: string): (r: Option<Status>)
    ensures r.Some? ==> StatusName(r.value) == text
  {
    match text
    case "open" => Some(Open)
    case "mitigated" => Some(Mitigated)
    case "accepted" => Some(Accepted)
    case _ => None
  }

  lemma StatusRoundTrip(s: Status, text: string)
    ensures ParseStatus(StatusName(s)) == Some(s)
    ensures ParseStatus(text).Some? <==> text in {"open", "mitigated", "accepted"}
  {
  }

  datatype Threat = Threat(
    id: string, ruleId: string, title: string, description: string,
    severity: Severity, status: Status, componentId: Option<string>, mitigation: Option<string>)

  /** `Threat(...)`: severity defaults to medium and status to open; component and mitigation are optional. */
  function NewThreat(id: string, ruleId: string, title: string, description: string,
                     severity: Option<Severity>, status: Option<Status>,
                     componentId: Option<string>, mitigation: Option<string>): (r: Threat)
    ensures r.id == id && r.ruleId == ruleId && r.title == title && r.description == description
    ensures r.severity == severity.GetOr(Medium) && r.status == status.GetOr(Open)
    ensures r.componentId == componentId && r.mitigation == mitigation
  {
    Threat(id, ruleId, title, description, severity.GetOr(Medium), status.GetOr(Open), componentId, mitigation)
  }

  /** A report: the project, when it was made, the threats and the summary counts by name. */
  datatype AnalysisReport = AnalysisReport(
    projectId: string, timestamp: string, threats: seq<Threat>, summary: map<string, int>)
}
