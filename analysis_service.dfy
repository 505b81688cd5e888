/**
 * The analysis run (server/app/services/analysis_service.py): the built-in rules followed
 * by the request's own rule definitions are checked one after another against the
 * project; a rule whose check raises is skipped without disturbing the others; the
 * report carries every threat found and their counts by severity.
 *
 * The clock is a parameter: the report's timestamp is whatever the caller passes.
 */
module AnalysisService {
  import opened Wrappers
  import opened OtmSchema
  import opened AnalysisSchema
  import opened RuleSchema
  import opened Catalog

  /** The rules of a run: the built-in ones, then one generic rule per definition, in order. */
  function RulesToRun(customRules: Option<seq<RuleDefinition>>): (r: seq<Rule>)
    ensures |r| >= |ACTIVE_RULES| && r[..|ACTIVE_RULES|] == ACTIVE_RULES
    ensures customRules.None? ==> r == ACTIVE_RULES
    ensures customRules.Some? ==>
      && |r| == |ACTIVE_RULES| + |customRules.value|
      && forall i :: 0 <= i < |customRules.value| ==> r[|ACTIVE_RULES| + i] == GenericRule(customRules.value[i])
  {
    var customs := if customRules.Some? then customRules.value else [];
    ACTIVE_RULES + seq(|customs|, i requires 0 <= i < |customs| => GenericRule(customs[i]))
  }

  /** What one check adds to the report: its threats, or nothing when it raised. */
  function Reported(outcome: Result<seq<Threat>, RuleError>): seq<Threat> {
    if outcome.Success? then outcome.value else []
  }

  /** The threats of a sequence of check outcomes, in order. */
  function Gather(outcomes: seq<Result<seq<Threat>, RuleError>>): seq<Threat>
    decreases |outcomes|
  {
    if outcomes == [] then []
    else Gather(outcomes[..|outcomes| - 1]) + Reported(outcomes[|outcomes| - 1])
  }

  lemma {:induction false} GatherAppend(x: seq<Result<seq<Threat>, RuleError>>, y: seq<Result<seq<Threat>, RuleError>>)
    ensures Gather(x + y) == Gather(x) + Gather(y)
    decreases |y|
  {
    if y == [] {
      assert x + y == x;
    } else {
      var y' := y[..|y| - 1];
      assert (x + y)[..|x + y| - 1] == x + y';
      assert (x + y)[|x + y| - 1] == y[|y| - 1];
      GatherAppend(x, y');
    }
  }

  /** The outcome of checking each rule, in order. */
  function Outcomes(rules: seq<Rule>, project: OTMProject): (r: seq<Result<seq<Threat>, RuleError>>)
    ensures |r| == |rules|
  {
    seq(|rules|, i requires 0 <= i < |rules| => CheckRule(rules[i], project))
  }

  lemma OutcomesAppend(a: seq<Rule>, b: seq<Rule>, project: OTMProject)
    ensures Outcomes(a + b, project) == Outcomes(a, project) + Outcomes(b, project)
  {
    assert forall i :: 0 <= i < |b| ==> (a + b)[|a| + i] == b[i];
  }

  /** The threats of a run of the rules in order; a rule whose check raises adds none. */
  function CollectThreats(rules: seq<Rule>, project: OTMProject): seq<Threat> {
    Gather(Outcomes(rules, project))
  }

  /** Running two lists of rules one after the other collects the threats of each, in order. */
  lemma CollectAppend(a: seq<Rule>, b: seq<Rule>, project: OTMProject)
    ensures CollectThreats(a + b, project) == CollectThreats(a, project) + CollectThreats(b, project)
  {
    OutcomesAppend(a, b, project);
    GatherAppend(Outcomes(a, project), Outcomes(b, project));
  }

  /** A single rule contributes its threats when its check succeeds and nothing when it raises. */
  lemma CollectOne(rule: Rule, project: OTMProject)
    ensures CollectThreats([rule], project) == Reported(CheckRule(rule, project))
  {
    var o := Outcomes([rule], project);
    assert o[0] == CheckRule(rule, project);
    assert o[..0] == [];
    assert Gather(o) == Gather(o[..0]) + Reported(o[0]);
  }

  /** One more rule adds its threats when its check succeeds. */
  lemma CollectExtend(rules: seq<Rule>, k: nat, project: OTMProject)
    requires k < |rules|
    ensures CollectThreats(rules[..k + 1], project) == CollectThreats(rules[..k], project) + Reported(CheckRule(rules[k], project))
  {
    assert rules[..k + 1] == rules[..k] + [rules[k]];
    CollectAppend(rules[..k], [rules[k]], project);
    CollectOne(rules[k], project);
  }

  /**
   * Fault isolation: a rule that raises between others removes only its own threats; those
   * of the rules before and after it are collected as if it were absent.
   */
  lemma FaultIsolation(before: seq<Rule>, failing: Rule, after: seq<Rule>, project: OTMProject)
    requires CheckRule(failing, project).Failure?
    ensures CollectThreats(before + [failing] + after, project) == CollectThreats(before + after, project)
  {
    CollectOne(failing, project);
    assert CollectThreats([failing], project) == [];
    CollectAppend(before, [failing], project);
    assert CollectThreats(before + [failing], project) == CollectThreats(before, project);
    CollectAppend(before + [failing], after, project);
    CollectAppend(before, after, project);
  }

  /** Every threat a check reports carries the rule's id and severity. */
  lemma ReportedByRule(rule: Rule, project: OTMProject)
    ensures forall t :: t in Reported(CheckRule(rule, project)) ==> t.ruleId == RuleId(rule) && t.severity == RuleSeverity(rule)
  {
    var out := CheckRule(rule, project);
    if out.Success? {
      forall t | t in out.value
        ensures t.ruleId == RuleId(rule) && t.severity == RuleSeverity(rule)
      {
        var k :| 0 <= k < |out.value| && out.value[k] == t;
      }
    }
  }

  /** Each threat collected was reported by one of the rules run, under its id and severity. */
  lemma {:induction false} CollectedFromRules(rules: seq<Rule>, project: OTMProject)
    ensures forall t :: t in CollectThreats(rules, project) ==>
      exists i :: 0 <= i < |rules| && t.ruleId == RuleId(rules[i]) && t.severity == RuleSeverity(rules[i])
    decreases |rules|
  {
    if rules != [] {
      var prior := rules[..|rules| - 1];
      var rule := rules[|rules| - 1];
      CollectedFromRules(prior, project);
      CollectExtend(rules, |rules| - 1, project);
      assert rules[..|rules|] == rules;
      ReportedByRule(rule, project);
      forall t | t in CollectThreats(rules, project)
        ensures exists i :: 0 <= i < |rules| && t.ruleId == RuleId(rules[i]) && t.severity == RuleSeverity(rules[i])
      {
        if t in CollectThreats(prior, project) {
          var i :| 0 <= i < |prior| && t.ruleId == RuleId(prior[i]) && t.severity == RuleSeverity(prior[i]);
          assert rules[i] == prior[i];
        } else {
          assert t in Reported(CheckRule(rule, project));
          assert rules[|rules| - 1] == rule;
        }
      }
    }
  }

  /** Running just the built-in rules collects their three reports, in catalog order. */
  lemma ActiveCollect(project: OTMProject)
    ensures CheckRule(UnencryptedStorageRule, project).Success? && CheckRule(HighRiskPublicZoneRule, project).Success?
    ensures CheckRule(MissingOwnerRule, project).Success?
    ensures CollectThreats(ACTIVE_RULES, project) ==
      CheckRule(UnencryptedStorageRule, project).value + CheckRule(HighRiskPublicZoneRule, project).value +
      CheckRule(MissingOwnerRule, project).value
  {
    BuiltinNeverFails(UnencryptedStorageRule, project);
    BuiltinNeverFails(HighRiskPublicZoneRule, project);
    BuiltinNeverFails(MissingOwnerRule, project);
    assert ACTIVE_RULES == [UnencryptedStorageRule] + [HighRiskPublicZoneRule] + [MissingOwnerRule];
    CollectAppend([UnencryptedStorageRule] + [HighRiskPublicZoneRule], [MissingOwnerRule], project);
    CollectAppend([UnencryptedStorageRule], [HighRiskPublicZoneRule], project);
    CollectOne(UnencryptedStorageRule, project);
    CollectOne(HighRiskPublicZoneRule, project);
    CollectOne(MissingOwnerRule, project);
  }

  /** The built-in rules never raise, so the run starts with all three of their reports, in catalog order. */
  lemma BuiltinsFirst(project: OTMProject, customRules: Option<seq<RuleDefinition>>)
    ensures var r1 := CheckRule(UnencryptedStorageRule, project);
      var r2 := CheckRule(HighRiskPublicZoneRule, project);
      var r3 := CheckRule(MissingOwnerRule, project);
      r1.Success? && r2.Success? && r3.Success? &&
      CollectThreats(RulesToRun(customRules), project) ==
        r1.value + r2.value + r3.value + CollectThreats(RulesToRun(customRules)[|ACTIVE_RULES|..], project)
  {
    BuiltinNeverFails(UnencryptedStorageRule, project);
    BuiltinNeverFails(HighRiskPublicZoneRule, project);
    BuiltinNeverFails(MissingOwnerRule, project);
    var rules := RulesToRun(customRules);
    assert rules == ACTIVE_RULES + rules[|ACTIVE_RULES|..];
    CollectAppend(ACTIVE_RULES, rules[|ACTIVE_RULES|..], project);
    ActiveCollect(project);
  }

  /** The number of threats of a severity. */
  function CountSeverity(ts: seq<Threat>, sev: Severity): (n: nat)
    ensures n <= |ts|
    decreases |ts|
  {
    if ts == [] then 0
    else CountSeverity(ts[..|ts| - 1], sev) + (if ts[|ts| - 1].severity == sev then 1 else 0)
  }

  /** The report's summary: the total and the count for each severity by name. */
  function SummaryOf(ts: seq<Threat>): (r: map<string, int>)
    ensures r.Keys == {"total", "critical", "high", "medium", "low"}
    ensures r["total"] == |ts|
    ensures forall s: Severity :: r[SeverityName(s)] == CountSeverity(ts, s)
  {
    map["total" := |ts|, "critical" := CountSeverity(ts, Critical), "high" := CountSeverity(ts, High),
        "medium" := CountSeverity(ts, Medium), "low" := CountSeverity(ts, Low)]
  }

  /** Every threat has exactly one of the four severities, so the counts add up to the total. */
  lemma {:induction false} CountsAddUp(ts: seq<Threat>)
    ensures CountSeverity(ts, Critical) + CountSeverity(ts, High) + CountSeverity(ts, Medium) + CountSeverity(ts, Low) == |ts|
    decreases |ts|
  {
    if ts != [] {
      CountsAddUp(ts[..|ts| - 1]);
    }
  }

  /** The summary is blind to threat ids. */
  lemma {:induction false} CountIgnoresIds(ts: seq<Threat>, sev: Severity)
    ensures CountSeverity(Anonymised(ts), sev) == CountSeverity(ts, sev)
    decreases |ts|
  {
    if ts != [] {
      var prior := ts[..|ts| - 1];
      CountIgnoresIds(prior, sev);
      assert Anonymised(ts)[..|ts| - 1] == Anonymised(prior);
    }
  }

  /** The project's id, or "unknown" when the project map has none. */
  function ProjectIdOf(project: OTMProject): (r: string)
    ensures "id" in project.project ==> r == project.project["id"]
    ensures "id" !in project.project ==> r == "unknown"
  {
    if "id" in project.project then project.project["id"] else "unknown"
  }

  /** The loop of `analyze` over the rules: each check runs in turn and one that raises is passed over. */
  method RunRules(rules: seq<Rule>, project: OTMProject) returns (all: seq<Threat>)
    ensures Anonymised(all) == CollectThreats(rules, project)
  {
    all := [];
    var k := 0;
    while k < |rules|
      invariant 0 <= k <= |rules|
      invariant Anonymised(all) == CollectThreats(rules[..k], project)
    {
      var found := Check(rules[k], project);
      CollectExtend(rules, k, project);
      if found.Success? {
        AnonymisedAppend(all, found.value);
        all := all + found.value;
      }
      k := k + 1;
    }
    assert rules[..|rules|] == rules;
  }

  /**
   * `analyze`: builds the list of rules, runs each with its failure caught, and reports the
   * threats with their summary.
   */
  method Analyze(project: OTMProject, customRules: Option<seq<RuleDefinition>>, timestamp: string)
    returns (report: AnalysisReport)
    ensures report.projectId == ProjectIdOf(project) && report.timestamp == timestamp
    ensures Anonymised(report.threats) == CollectThreats(RulesToRun(customRules), project)
    ensures report.summary == SummaryOf(report.threats)
    ensures report.summary == SummaryOf(CollectThreats(RulesToRun(customRules), project))
  {
    var rules := ACTIVE_RULES;
    if customRules.Some? {
      var customs := customRules.value;
      var j := 0;
      while j < |customs|
        invariant 0 <= j <= |customs|
        invariant rules == ACTIVE_RULES + seq(j, i requires 0 <= i < j => GenericRule(customs[i]))
      {
        rules := rules + [GenericRule(customs[j])];
        j := j + 1;
      }
    }
    assert rules == RulesToRun(customRules);

    var all := RunRules(rules, project);
    var summary := SummaryOf(all);
    CountIgnoresIds(all, Critical);
    CountIgnoresIds(all, High);
    CountIgnoresIds(all, Medium);
    CountIgnoresIds(all, Low);
    report := AnalysisReport(ProjectIdOf(project), timestamp, all, summary);
  }
}
