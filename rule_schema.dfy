/**
 * Data-driven rule definitions (server/app/domain/analysis/rule_schema.py): a rule names
 * what it targets and the criteria an item must meet, each a field path, an operator and
 * an expected value; an analysis request may carry such rules.
 */
module RuleSchema {
  import opened Wrappers
  import opened Values
  import opened Diagram
  import opened OtmSchema
  import opened AnalysisSchema

  datatype Operator = Equals | NotEquals | Contains | NotContains | Missing | Exists

  function OperatorName(op: Operator): string {
    match op
    case Equals => "equals"
    case NotEquals => "not_equals"
    case Contains => "contains"
    case NotContains => "not_contains"
    case Missing => "missing"
    case Exists => "exists"
  }

  /** The operator literal validation: exactly the six names are accepted. */
  function ParseOperator(text: string): (r: Option<Operator>)
    ensures r.Some? ==> OperatorName(r.value) == text
  {
    match text
    case "equals" => Some(Equals)
    case "not_equals" => Some(NotEquals)
    case "contains" => Some(Contains)
    case "not_contains" => Some(NotContains)
    case "missing" => Some(Missing)
    case "exists" => Some(Exists)
    case _ => None
  }

  lemma OperatorRoundTrip(op: Operator)
    ensures ParseOperator(OperatorName(op)) == Some(op)
  {
  }

  datatype RuleTarget = ComponentTarget | TrustZoneTarget

  function TargetName(t: RuleTarget): string {
    match t
    case ComponentTarget => "component"
    case TrustZoneTarget => "trustZone"
  }

  function ParseTarget(text: string): (r: Option<RuleTarget>)
    ensures r.Some? ==> TargetName(r.value) == text
  {
    match text
    case "component" => Some(ComponentTarget)
    case "trustZone" => Some(TrustZoneTarget)
    case _ => None
  }

  lemma TargetRoundTrip(t: RuleTarget)
    ensures ParseTarget(TargetName(t)) == Some(t)
  {
  }

  datatype RuleCriteria = RuleCriteria(field: string, operator: Operator, value: Value)

  /** `RuleCriteria(...)`: the operator defaults to equals and must be one of the six; the value defaults to none. */
  function NewRuleCriteria(field: string, operator: Option<string>, value: Option<Value>)
    : (r: Result<RuleCriteria, ValidationError>)
    ensures r.Success? <==> operator.None? || ParseOperator(operator.value).Some?
    ensures r.Success? ==> r.value.field == field && r.value.value == value.GetOr(Null)
    ensures r.Success? && operator.None? ==> r.value.operator == Equals
    ensures r.Success? && operator.Some? ==> OperatorName(r.value.operator) == operator.value
  {
    var op := if operator.None? then Some(Equals) else ParseOperator(operator.value);
    if op.None? then Failure(ValidationError("RuleCriteria", "operator"))
    else Success(RuleCriteria(field, op.value, value.GetOr(Null)))
  }

  datatype RuleDefinition = RuleDefinition(
    id: string, title: string, severity: Severity, description: string,
    mitigation: Option<string>, target: RuleTarget, criteria: seq<RuleCriteria>)

  /**
   * `RuleDefinition(...)`: the severity is required and must be one of the four; the target
   * defaults to component and must be component or trustZone; mitigation is optional.
   */
  function NewRuleDefinition(id: string, title: string, severity: string, description: string,
                             mitigation: Option<string>, target: Option<string>, criteria: seq<RuleCriteria>)
    : (r: Result<RuleDefinition, ValidationError>)
    ensures r.Success? <==> ParseSeverity(severity).Some? && (target.None? || ParseTarget(target.value).Some?)
    ensures r.Success? ==> SeverityName(r.value.severity) == severity && r.value.mitigation == mitigation &&
                           r.value.id == id && r.value.criteria == criteria
    ensures r.Success? ==> r.value.target == if target.None? then ComponentTarget else ParseTarget(target.value).value
  {
    var sev := ParseSeverity(severity);
    var tgt := if target.None? then Some(ComponentTarget) else ParseTarget(target.value);
    if sev.None? then Failure(ValidationError("RuleDefinition", "severity"))
    else if tgt.None? then Failure(ValidationError("RuleDefinition", "target"))
    else Success(RuleDefinition(id, title, sev.value, description, mitigation, tgt.value, criteria))
  }

  /** A request for analysis; `customRules` is absent unless the client sends rule definitions. */
  datatype AnalysisRequest = AnalysisRequest(
    projectId: string, projectName: string, nodes: seq<Node>, edges: seq<Edge>,
    customRules: Option<seq<RuleDefinition>>)
}
