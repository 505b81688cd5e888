/**
 * The threat rule catalog (server/app/services/rules/catalog.py): the data-driven rule
 * that evaluates a definition's criteria against components or trust zones, the three
 * built-in rules, and the list of rules always active.
 *
 * Every spec function here produces threats whose id is empty; the methods draw a fresh
 * arbitrary id for each threat, as the source does with `uuid4`, and state that their
 * threats are the spec's once the ids are blanked.
 */
module Catalog {
  import opened Wrappers
  import opened Text
  import opened Values
  import opened OtmSchema
  import opened AnalysisSchema
  import opened RuleSchema

  /** An error a rule raises while checking (a `TypeError` from Python's `in`). */
  datatype RuleError = TypeError(message: string)

  // ---- Entities as the rules see them ----

  function OptionalText(s: Option<string>): Value {
    if s.Some? then Str(s.value) else Null
  }

  function TextList(xs: seq<string>): (r: seq<Value>)
    ensures |r| == |xs| && forall i :: 0 <= i < |xs| ==> r[i] == Str(xs[i])
  {
    seq(|xs|, i requires 0 <= i < |xs| => Str(xs[i]))
  }

  /** A component as a model instance: its fields by name. */
  function ComponentValue(c: Component): Value {
    Obj(map["id" := Str(c.id), "name" := Str(c.name), "description" := OptionalText(c.description),
            "tags" := Arr(TextList(c.tags)), "type" := Str(c.componentType), "parent" := Str(c.parent),
            "attributes" := Dict(c.attributes)])
  }

  function RatingValue(r: TrustRating): Value {
    Obj(map["confidentiality" := Num(r.confidentiality as real), "integrity" := Num(r.integrity as real),
            "availability" := Num(r.availability as real)])
  }

  /** A trust zone as a model instance: its fields by name. */
  function ZoneValue(z: TrustZone): Value {
    Obj(map["id" := Str(z.id), "name" := Str(z.name), "description" := OptionalText(z.description),
            "tags" := Arr(TextList(z.tags)), "type" := Str(z.zoneType), "risk" := RatingValue(z.risk),
            "attributes" := Dict(z.attributes)])
  }

  // ---- Field paths ----

  /** One step of a path: a key of a dict, a field of a model instance, and none for anything else. */
  function StepField(v: Value, part: string): Value {
    match v
    case Dict(m) => if part in m then m[part] else Null
    case Obj(f) => if part in f then f[part] else Null
    case _ => Null
  }

  /** The value at the end of a path of steps. */
  function FieldValue(v: Value, parts: seq<string>): Value
    decreases |parts|
  {
    if parts == [] then v else FieldValue(StepField(v, parts[0]), parts[1..])
  }

  /** Once a step finds nothing, so does the rest of the path. */
  lemma {:induction false} NullStays(parts: seq<string>)
    ensures FieldValue(Null, parts) == Null
    decreases |parts|
  {
    if parts != [] {
      NullStays(parts[1..]);
    }
  }

  /** Following a path in two pieces is following the whole path. */
  lemma {:induction false} FieldValueCompose(v: Value, p: seq<string>, q: seq<string>)
    ensures FieldValue(v, p + q) == FieldValue(FieldValue(v, p), q)
    decreases |p|
  {
    if p == [] {
      assert p + q == q;
    } else {
      assert (p + q)[0] == p[0] && (p + q)[1..] == p[1..] + q;
      FieldValueCompose(StepField(v, p[0]), p[1..], q);
    }
  }

  /** The dotted path `attributes.<key>` splits into its two steps. */
  lemma AttributeSteps(key: string)
    requires '.' !in key
    ensures Split("attributes." + key, '.') == ["attributes", key]
  {
    var parts := ["attributes", key];
    assert Join(parts, ['.']) == "attributes" + ['.'] + key;
    assert "attributes." + key == "attributes" + ['.'] + key;
    SplitJoin(parts, '.');
  }

  /** A path `attributes.<key>` reads a component's attribute under that key, or none. */
  lemma AttributePath(c: Component, key: string)
    requires '.' !in key
    ensures FieldValue(ComponentValue(c), Split("attributes." + key, '.')) ==
            if key in c.attributes then c.attributes[key] else Null
  {
    AttributeSteps(key);
    var parts := ["attributes", key];
    assert parts[1..] == [key] && [key][1..] == [];
    assert StepField(ComponentValue(c), "attributes") == Dict(c.attributes);
    assert FieldValue(ComponentValue(c), parts) == FieldValue(Dict(c.attributes), [key]);
    assert FieldValue(Dict(c.attributes), [key]) == FieldValue(StepField(Dict(c.attributes), key), []);
  }

  /** `_get_field_value`: walks the dotted path, stopping with none at the first step that cannot go on. */
  method GetFieldValue(obj: Value, path: string) returns (r: Value)
    ensures r == FieldValue(obj, Split(path, '.'))
  {
    var parts := Split(path, '.');
    var current := obj;
    var i := 0;
    while i < |parts|
      invariant 0 <= i <= |parts|
      invariant FieldValue(current, parts[i..]) == FieldValue(obj, parts)
      decreases |parts| - i
    {
      assert parts[i..][0] == parts[i] && parts[i..][1..] == parts[i + 1..];
      match current {
        case Dict(m) =>
          current := if parts[i] in m then m[parts[i]] else Null;
        case Obj(f) =>
          if parts[i] !in f {
            NullStays(parts[i + 1..]);
            return Null;
          }
          current := f[parts[i]];
        case _ =>
          NullStays(parts[i + 1..]);
          return Null;
      }
      i := i + 1;
    }
    r := current;
  }

  // ---- Criteria ----

  /** The messages of the `TypeError`s Python's `in` raises. */
  const IN_STRING_MESSAGE: string := "'in <string>' requires string as left operand"
  const UNHASHABLE_LIST_MESSAGE: string := "unhashable type: 'list'"
  const UNHASHABLE_DICT_MESSAGE: string := "unhashable type: 'dict'"
  const UNHASHABLE_MESSAGE: string := "unhashable type"
  const NOT_ITERABLE_MESSAGE: string := "argument is not iterable"

  /**
   * Python `needle in hay`: substring for strings, element equality for lists, key lookup
   * for dicts (a list or dict needle is unhashable), never for a model instance (it
   * iterates over name and value pairs); any other container raises.
   */
  function PyIn(needle: Value, hay: Value): (r: Result<bool, RuleError>)
    ensures hay.Str? ==> (r.Success? <==> needle.Str?)
    ensures hay.Str? && needle.Str? ==> r == Success(IsSubstring(needle.s, hay.s))
    ensures hay.Arr? ==> r == Success(exists i :: 0 <= i < |hay.items| && PyEq(hay.items[i], needle))
    ensures hay.Null? || hay.Bool? || hay.Num? ==> r.Failure?
  {
    match hay
    case Str(s) =>
      if needle.Str? then Success(IsSubstring(needle.s, s))
      else Failure(TypeError(IN_STRING_MESSAGE))
    case Arr(xs) => Success(exists i | 0 <= i < |xs| :: PyEq(xs[i], needle))
    case Dict(m) =>
      (match needle
       case Str(k) => Success(k in m)
       case Arr(_) => Failure(TypeError(UNHASHABLE_LIST_MESSAGE))
       case Dict(_) => Failure(TypeError(UNHASHABLE_DICT_MESSAGE))
       case Obj(_) => Failure(TypeError(UNHASHABLE_MESSAGE))
       case _ => Success(false))
    case Obj(_) => Success(false)
    case _ => Failure(TypeError(NOT_ITERABLE_MESSAGE))
  }

  function BoolText(b: bool): string {
    if b then "true" else "false"
  }

  /** None or the empty string: what `missing` looks for. */
  predicate IsBlank(v: Value) {
    v.Null? || v == Str("")
  }

  /** One criterion on the value found at its path. */
  function CriterionHolds(val: Value, crit: RuleCriteria): (r: Result<bool, RuleError>)
    ensures crit.operator in {Equals, NotEquals, Missing, Exists} ==> r.Success?
    ensures crit.operator == Missing ==> r == Success(IsBlank(val))
    ensures crit.operator == Exists ==> r == Success(!IsBlank(val))
    ensures crit.operator == NotEquals ==> r == Success(!PyEq(val, crit.value))
    ensures crit.operator == Equals && !(crit.value.Bool? && val.Str?) ==> r == Success(PyEq(val, crit.value))
    ensures crit.operator == Equals && crit.value.Bool? && val.Str? ==>
      r == Success(Lower(val.s) == BoolText(crit.value.b))
    ensures crit.operator == Contains && !PyTruthy(val) ==> r == Success(false)
    ensures crit.operator == NotContains && !PyTruthy(val) ==> r == Success(true)
    ensures crit.operator in {Contains, NotContains} && PyTruthy(val) ==>
      (r.Success? <==> PyIn(crit.value, val).Success?)
  {
    match crit.operator
    case Equals =>
      if crit.value.Bool? && val.Str? then Success(Lower(val.s) == BoolText(crit.value.b))
      else Success(PyEq(val, crit.value))
    case NotEquals => Success(!PyEq(val, crit.value))
    case Contains =>
      if !PyTruthy(val) then Success(false) else PyIn(crit.value, val)
    case NotContains =>
      if !PyTruthy(val) then Success(true)
      else
        (match PyIn(crit.value, val)
         case Failure(e) => Failure(e)
         case Success(found) => Success(!found))
    case Missing => Success(IsBlank(val))
    case Exists => Success(!IsBlank(val))
  }

  /** `missing` and `exists` are exact complements, whatever their expected values. */
  lemma MissingExistsComplement(val: Value, f: string, v: Value, w: Value)
    ensures CriterionHolds(val, RuleCriteria(f, Missing, v)).value == !CriterionHolds(val, RuleCriteria(f, Exists, w)).value
  {
  }

  /** The equals check on a string against a boolean ignores the string's case. */
  lemma EqualsBoolIgnoresCase(s: string, b: bool, f: string)
    ensures CriterionHolds(Str(s), RuleCriteria(f, Equals, Bool(b))) ==
            CriterionHolds(Str(Lower(s)), RuleCriteria(f, Equals, Bool(b)))
  {
    LowerIdempotent(s);
  }

  /** `equals` and `not_equals` disagree on every value except a string compared with a boolean. */
  lemma EqualsNotEqualsOpposite(val: Value, f: string, v: Value)
    requires !(v.Bool? && val.Str?)
    ensures CriterionHolds(val, RuleCriteria(f, Equals, v)).value == !CriterionHolds(val, RuleCriteria(f, NotEquals, v)).value
  {
  }

  function CriterionOn(obj: Value, crit: RuleCriteria): Result<bool, RuleError> {
    CriterionHolds(FieldValue(obj, Split(crit.field, '.')), crit)
  }

  /** All the criteria, in order, stopping at the first that fails or raises. */
  function CriteriaHold(obj: Value, criteria: seq<RuleCriteria>): Result<bool, RuleError> {
    if criteria == [] then Success(true)
    else
      match CriterionOn(obj, criteria[0])
      case Failure(e) => Failure(e)
      case Success(false) => Success(false)
      case Success(true) => CriteriaHold(obj, criteria[1..])
  }

  /** The criteria hold exactly when every criterion holds. */
  lemma {:induction false} CriteriaAllHold(obj: Value, criteria: seq<RuleCriteria>)
    ensures CriteriaHold(obj, criteria) == Success(true) <==>
      forall i :: 0 <= i < |criteria| ==> CriterionOn(obj, criteria[i]) == Success(true)
  {
    if criteria != [] {
      CriteriaAllHold(obj, criteria[1..]);
      assert forall i :: 1 <= i < |criteria| ==> criteria[i] == criteria[1..][i - 1];
    }
  }

  /** Criteria that all hold can be skipped: the outcome is that of the rest. */
  lemma {:induction false} SkipHolding(obj: Value, criteria: seq<RuleCriteria>, n: nat)
    requires n <= |criteria|
    requires forall j :: 0 <= j < n ==> CriterionOn(obj, criteria[j]) == Success(true)
    ensures CriteriaHold(obj, criteria) == CriteriaHold(obj, criteria[n..])
  {
    if n > 0 {
      var rest := criteria[1..];
      assert forall j :: 0 <= j < n - 1 ==> rest[j] == criteria[j + 1];
      SkipHolding(obj, rest, n - 1);
      assert rest[n - 1..] == criteria[n..];
    }
  }

  /** The criteria fail, without raising, when some criterion fails and every one before it holds... */
  lemma CriteriaFailAt(obj: Value, criteria: seq<RuleCriteria>, n: nat)
    requires n < |criteria| && CriterionOn(obj, criteria[n]) == Success(false)
    requires forall j :: 0 <= j < n ==> CriterionOn(obj, criteria[j]) == Success(true)
    ensures CriteriaHold(obj, criteria) == Success(false)
  {
    SkipHolding(obj, criteria, n);
    assert criteria[n..][0] == criteria[n];
  }

  /** ...and only then: a failure has a first criterion that fails, with every one before it holding. */
  lemma {:induction false} CriteriaFailureWitness(obj: Value, criteria: seq<RuleCriteria>) returns (n: nat)
    requires CriteriaHold(obj, criteria) == Success(false)
    ensures n < |criteria| && CriterionOn(obj, criteria[n]) == Success(false)
    ensures forall j :: 0 <= j < n ==> CriterionOn(obj, criteria[j]) == Success(true)
  {
    var first := CriterionOn(obj, criteria[0]);
    if first == Success(false) {
      n := 0;
    } else {
      var rest := criteria[1..];
      assert first == Success(true);
      assert CriteriaHold(obj, rest) == Success(false);
      var m := CriteriaFailureWitness(obj, rest);
      n := m + 1;
      assert criteria[n] == rest[m];
      forall j | 0 <= j < n ensures CriterionOn(obj, criteria[j]) == Success(true) {
        if j > 0 {
          assert criteria[j] == rest[j - 1];
        }
      }
    }
  }

  /** `_match_criteria`: a loop over the criteria that returns as soon as one fails. */
  method MatchCriteria(obj: Value, criteria: seq<RuleCriteria>) returns (r: Result<bool, RuleError>)
    ensures r == CriteriaHold(obj, criteria)
  {
    var i := 0;
    while i < |criteria|
      invariant 0 <= i <= |criteria|
      invariant CriteriaHold(obj, criteria) == CriteriaHold(obj, criteria[i..])
    {
      var crit := criteria[i];
      assert criteria[i..][0] == crit && criteria[i..][1..] == criteria[i + 1..];
      var val := GetFieldValue(obj, crit.field);
      var holds := CriterionHolds(val, crit);
      if holds.Failure? {
        return Failure(holds.error);
      }
      if !holds.value {
        return Success(false);
      }
      i := i + 1;
    }
    r := Success(true);
  }

  // ---- Rules ----

  datatype Rule =
    | UnencryptedStorageRule
    | HighRiskPublicZoneRule
    | MissingOwnerRule
    | GenericRule(definition: RuleDefinition)

  function RuleId(rule: Rule): string {
    match rule
    case UnencryptedStorageRule => "RULE-001"
    case HighRiskPublicZoneRule => "RULE-002"
    case MissingOwnerRule => "RULE-003"
    case GenericRule(d) => d.id
  }

  function RuleTitle(rule: Rule): string {
    match rule
    case UnencryptedStorageRule => "Unencrypted Data Storage"
    case HighRiskPublicZoneRule => "High Risk Public Zone"
    case MissingOwnerRule => "Missing Component Owner"
    case GenericRule(d) => d.title
  }

  function RuleSeverity(rule: Rule): Severity {
    match rule
    case UnencryptedStorageRule => High
    case HighRiskPublicZoneRule => Medium
    case MissingOwnerRule => Low
    case GenericRule(d) => d.severity
  }

  /** The built-in rules, always run, in this order. */
  const ACTIVE_RULES: seq<Rule> := [UnencryptedStorageRule, HighRiskPublicZoneRule, MissingOwnerRule]

  /** What a rule inspects: a component or a trust zone. */
  datatype Item = ComponentItem(component: Component) | ZoneItem(zone: TrustZone)

  function ItemId(item: Item): string {
    match item
    case ComponentItem(c) => c.id
    case ZoneItem(z) => z.id
  }

  function ItemName(item: Item): string {
    match item
    case ComponentItem(c) => c.name
    case ZoneItem(z) => z.name
  }

  function ItemValue(item: Item): Value {
    match item
    case ComponentItem(c) => ComponentValue(c)
    case ZoneItem(z) => ZoneValue(z)
  }

  function ComponentItems(cs: seq<Component>): (r: seq<Item>)
    ensures |r| == |cs| && forall i :: 0 <= i < |cs| ==> r[i] == ComponentItem(cs[i])
  {
    seq(|cs|, i requires 0 <= i < |cs| => ComponentItem(cs[i]))
  }

  function ZoneItems(zs: seq<TrustZone>): (r: seq<Item>)
    ensures |r| == |zs| && forall i :: 0 <= i < |zs| ==> r[i] == ZoneItem(zs[i])
  {
    seq(|zs|, i requires 0 <= i < |zs| => ZoneItem(zs[i]))
  }

  /** The items a rule scans: the components, or for the zone rule and zone-targeted definitions, the trust zones. */
  function Targets(rule: Rule, project: OTMProject): seq<Item> {
    match rule
    case HighRiskPublicZoneRule => ZoneItems(project.trustZones)
    case GenericRule(d) =>
      if d.target == ComponentTarget then ComponentItems(project.components) else ZoneItems(project.trustZones)
    case _ => ComponentItems(project.components)
  }

  /** The component types RULE-001 treats as data stores. */
  const STORE_TYPES: set<string> := {"database", "storage", "s3"}

  /** `str(v).lower() == "true"`: the boolean true, or a string reading "true" in any case. */
  predicate SaysTrue(v: Value) {
    v == Bool(true) || (v.Str? && Lower(v.s) == "true")
  }

  /**
   * The attributes declare encryption: some key reads "encrypted" in lower case, and every
   * such key holds a value that says true.
   */
  predicate IsEncrypted(attributes: map<string, Value>) {
    && (exists k | k in attributes :: Lower(k) == "encrypted")
    && (forall k | k in attributes && Lower(k) == "encrypted" :: SaysTrue(attributes[k]))
  }

  /** RULE-001's test: a data store whose attributes do not declare encryption. */
  predicate UnencryptedStore(c: Component) {
    c.componentType in STORE_TYPES && !IsEncrypted(c.attributes)
  }

  /** RULE-002's test: confidentiality or integrity rated below 20. */
  predicate LowTrust(risk: TrustRating) {
    risk.confidentiality < 20 || risk.integrity < 20
  }

  /** Some tag begins with "owner:". */
  predicate HasOwnerTag(tags: seq<string>) {
    exists i | 0 <= i < |tags| :: StartsWith(tags[i], "owner:")
  }

  /** Whether a rule flags an item, or the error its check raises. */
  function Flags(rule: Rule, item: Item): Result<bool, RuleError> {
    match rule
    case UnencryptedStorageRule => Success(item.ComponentItem? && UnencryptedStore(item.component))
    case HighRiskPublicZoneRule => Success(item.ZoneItem? && LowTrust(item.zone.risk))
    case MissingOwnerRule => Success(item.ComponentItem? && !HasOwnerTag(item.component.tags))
    case GenericRule(d) => CriteriaHold(ItemValue(item), d.criteria)
  }

  /** The fixed texts of the built-in rules' descriptions and mitigations. */
  const UNENCRYPTED_NOTE: string := ") does not appear to have encryption enabled."
  const UNENCRYPTED_MITIGATION: string := "Enable server-side encryption for this data store."
  const LOW_TRUST_NOTE: string := "' has very low trust ratings. Ensure strict boundaries."
  const LOW_TRUST_MITIGATION: string :=
    "Verify that this zone is intentionally untrusted (e.g. Public Internet) and all ingress is filtered."
  const NO_OWNER_NOTE: string := "' is missing an 'owner:...' tag."
  const NO_OWNER_MITIGATION: string := "Add an 'owner:team-name' tag to facilitate incident response."

  /** The description and mitigation a rule gives a flagged item. */
  function Advice(rule: Rule, item: Item): (string, Option<string>) {
    var name := ItemName(item);
    match rule
    case UnencryptedStorageRule =>
      var ctype := if item.ComponentItem? then item.component.componentType else "";
      ("Component '" + name + "' (" + ctype + UNENCRYPTED_NOTE, Some(UNENCRYPTED_MITIGATION))
    case HighRiskPublicZoneRule =>
      ("Trust Zone '" + name + LOW_TRUST_NOTE, Some(LOW_TRUST_MITIGATION))
    case MissingOwnerRule =>
      ("Component '" + name + NO_OWNER_NOTE, Some(NO_OWNER_MITIGATION))
    case GenericRule(d) =>
      (ReplaceAll(d.description, "{name}", name), d.mitigation)
  }

  /** The threat a rule reports for a flagged item (with an empty id). */
  function ThreatFor(rule: Rule, item: Item): (t: Threat)
    ensures t.id == "" && t.ruleId == RuleId(rule) && t.title == RuleTitle(rule)
    ensures t.severity == RuleSeverity(rule) && t.status == Open && t.componentId == Some(ItemId(item))
    ensures (t.description, t.mitigation) == Advice(rule, item)
  {
    var advice := Advice(rule, item);
    NewThreat("", RuleId(rule), RuleTitle(rule), advice.0, Some(RuleSeverity(rule)), None, Some(ItemId(item)), advice.1)
  }

  /** The items a scan flags, in order, or the first error an item raises. */
  function ScanFlagged(rule: Rule, items: seq<Item>): Result<seq<Item>, RuleError>
    decreases |items|
  {
    if items == [] then Success([])
    else
      match ScanFlagged(rule, items[..|items| - 1])
      case Failure(e) => Failure(e)
      case Success(fs) =>
        match Flags(rule, items[|items| - 1])
        case Failure(e) => Failure(e)
        case Success(flagged) => Success(if flagged then fs + [items[|items| - 1]] else fs)
  }

  /** The threats reported for the flagged items, one each, in order. */
  function ThreatsOf(rule: Rule, flagged: seq<Item>): (r: seq<Threat>)
    ensures |r| == |flagged| && forall i :: 0 <= i < |flagged| ==> r[i] == ThreatFor(rule, flagged[i])
  {
    seq(|flagged|, i requires 0 <= i < |flagged| => ThreatFor(rule, flagged[i]))
  }

  /** A rule's check of a project: a threat per flagged target, or the error a target raised. */
  function CheckRule(rule: Rule, project: OTMProject): Result<seq<Threat>, RuleError> {
    match ScanFlagged(rule, Targets(rule, project))
    case Failure(e) => Failure(e)
    case Success(fs) => Success(ThreatsOf(rule, fs))
  }

  /** The items a rule flags, as a filter: those, in order, whose check says yes. */
  function FlaggedItems(rule: Rule, items: seq<Item>): (r: seq<Item>)
    ensures forall k :: 0 <= k < |r| ==> r[k] in items && Flags(rule, r[k]) == Success(true)
    ensures forall i :: 0 <= i < |items| && Flags(rule, items[i]) == Success(true) ==> items[i] in r
    decreases |items|
  {
    if items == [] then []
    else
      var last := items[|items| - 1];
      var prior := items[..|items| - 1];
      var r := FlaggedItems(rule, prior) + (if Flags(rule, last) == Success(true) then [last] else []);
      assert forall i :: 0 <= i < |prior| ==> items[i] == prior[i];
      r
  }

  /** A scan goes on past its last item exactly when the items before it and the item itself do not raise. */
  lemma ScanStep(rule: Rule, items: seq<Item>)
    requires items != []
    ensures ScanFlagged(rule, items).Success? <==>
      ScanFlagged(rule, items[..|items| - 1]).Success? && Flags(rule, items[|items| - 1]).Success?
  {
  }

  /** A scan succeeds exactly when no item raises. */
  lemma {:induction false} ScanSucceeds(rule: Rule, items: seq<Item>)
    ensures ScanFlagged(rule, items).Success? <==> forall i :: 0 <= i < |items| ==> Flags(rule, items[i]).Success?
    decreases |items|
  {
    if items != [] {
      var prior := items[..|items| - 1];
      ScanSucceeds(rule, prior);
      ScanStep(rule, items);
      if ScanFlagged(rule, items).Success? {
        forall i | 0 <= i < |items|
          ensures Flags(rule, items[i]).Success?
        {
          if i < |prior| {
            assert prior[i] == items[i];
          }
        }
      } else if ScanFlagged(rule, prior).Failure? {
        var j :| 0 <= j < |prior| && Flags(rule, prior[j]).Failure?;
        assert prior[j] == items[j];
      }
    }
  }

  /** A scan that succeeds yields exactly the items the filter keeps. */
  lemma {:induction false} ScanKeepsFlagged(rule: Rule, items: seq<Item>)
    requires ScanFlagged(rule, items).Success?
    ensures ScanFlagged(rule, items).value == FlaggedItems(rule, items)
    decreases |items|
  {
    if items != [] {
      var prior := items[..|items| - 1];
      ScanKeepsFlagged(rule, prior);
    }
  }

  /** The built-in rules never raise. */
  lemma {:induction false} BuiltinNeverFails(rule: Rule, project: OTMProject)
    requires !rule.GenericRule?
    ensures CheckRule(rule, project).Success?
  {
    ScanSucceeds(rule, Targets(rule, project));
  }

  /** A definition without criteria flags every item it targets. */
  lemma {:induction false} NoCriteriaFlagsAll(d: RuleDefinition, items: seq<Item>)
    requires d.criteria == []
    ensures FlaggedItems(GenericRule(d), items) == items
    decreases |items|
  {
    if items != [] {
      NoCriteriaFlagsAll(d, items[..|items| - 1]);
      assert items == items[..|items| - 1] + [items[|items| - 1]];
    }
  }

  /** RULE-001 flags only data stores, and never one whose only encryption key holds true in any spelling. */
  lemma UnencryptedStorageExamples(c: Component, k: string, v: Value)
    ensures c.componentType !in STORE_TYPES ==> Flags(UnencryptedStorageRule, ComponentItem(c)) == Success(false)
    ensures c.componentType in STORE_TYPES && (forall j :: j in c.attributes ==> Lower(j) != "encrypted") ==>
      Flags(UnencryptedStorageRule, ComponentItem(c)) == Success(true)
    ensures Lower(k) == "encrypted" && SaysTrue(v) && (forall j :: j in c.attributes ==> Lower(j) != "encrypted") ==>
      Flags(UnencryptedStorageRule, ComponentItem(c.(attributes := c.attributes[k := v]))) == Success(false)
  {
    if Lower(k) == "encrypted" && SaysTrue(v) && (forall j :: j in c.attributes ==> Lower(j) != "encrypted") {
      var attrs := c.attributes[k := v];
      assert k in attrs;
      assert IsEncrypted(attrs);
    }
  }

  /** RULE-002 flags a zone exactly when confidentiality or integrity is below 20; availability plays no part. */
  lemma HighRiskIgnoresAvailability(z: TrustZone, a: int)
    ensures Flags(HighRiskPublicZoneRule, ZoneItem(z)) == Success(z.risk.confidentiality < 20 || z.risk.integrity < 20)
    ensures Flags(HighRiskPublicZoneRule, ZoneItem(z.(risk := z.risk.(availability := a)))) ==
            Flags(HighRiskPublicZoneRule, ZoneItem(z))
  {
  }

  /** RULE-003: a component with an "owner:" tag is never flagged, and adding one clears the flag. */
  lemma {:induction false} OwnerTagClearsFlag(c: Component, team: string)
    ensures Flags(MissingOwnerRule, ComponentItem(c.(tags := c.tags + ["owner:" + team]))) == Success(false)
  {
    var tags := c.tags + ["owner:" + team];
    assert StartsWith(tags[|tags| - 1], "owner:");
  }

  /** A description that opens with the name placeholder names the item once. */
  lemma {:induction false} GenericDescriptionNamesItem(d: RuleDefinition, item: Item, rest: string)
    requires d.description == "{name}" + rest && !IsSubstring("{name}", rest)
    ensures ThreatFor(GenericRule(d), item).description == ItemName(item) + rest
    ensures ThreatFor(GenericRule(d), item).mitigation == d.mitigation
  {
    ReplaceLeading("{name}", ItemName(item), rest);
  }

  /** The threats with their ids blanked, for comparison with the spec functions. */
  function Anonymised(ts: seq<Threat>): (r: seq<Threat>)
    ensures |r| == |ts| && forall i :: 0 <= i < |ts| ==> r[i] == ts[i].(id := "")
  {
    seq(|ts|, i requires 0 <= i < |ts| => ts[i].(id := ""))
  }

  lemma AnonymisedAppend(a: seq<Threat>, b: seq<Threat>)
    ensures Anonymised(a + b) == Anonymised(a) + Anonymised(b)
  {
  }

  /** A threat with a fresh id for one more flagged item keeps the threats in step with the flagged items. */
  lemma ThreatsAppend(rule: Rule, threats: seq<Threat>, flagged: seq<Item>, item: Item, id: string)
    requires Anonymised(threats) == ThreatsOf(rule, flagged)
    ensures Anonymised(threats + [ThreatFor(rule, item).(id := id)]) == ThreatsOf(rule, flagged + [item])
  {
    var t := ThreatFor(rule, item);
    AnonymisedAppend(threats, [t.(id := id)]);
    assert Anonymised([t.(id := id)]) == [t];
    ThreatsOfAppend(rule, flagged, item);
  }

  lemma ThreatsOfAppend(rule: Rule, flagged: seq<Item>, item: Item)
    ensures ThreatsOf(rule, flagged + [item]) == ThreatsOf(rule, flagged) + [ThreatFor(rule, item)]
  {
    assert forall i :: 0 <= i < |flagged| ==> (flagged + [item])[i] == flagged[i];
  }

  /** A fresh threat id (`uuid4`): any string. */
  method FreshId() returns (id: string)
  {
    id :| true;
  }

  /** Whether the rule flags the item: the built-in tests inline, the definition's criteria through `MatchCriteria`. */
  method Evaluate(rule: Rule, item: Item) returns (r: Result<bool, RuleError>)
    ensures r == Flags(rule, item)
  {
    if rule.GenericRule? {
      r := MatchCriteria(ItemValue(item), rule.definition.criteria);
    } else {
      r := Flags(rule, item);
    }
  }

  /**
   * `check`: a loop over the rule's targets appending one threat, with a fresh id, per
   * flagged item; an error raised for any item ends the check with that error.
   */
  method Check(rule: Rule, project: OTMProject) returns (r: Result<seq<Threat>, RuleError>)
    ensures r.Failure? <==> CheckRule(rule, project).Failure?
    ensures r.Failure? ==> r == CheckRule(rule, project)
    ensures r.Success? ==> Anonymised(r.value) == CheckRule(rule, project).value
  {
    var items := Targets(rule, project);
    var threats: seq<Threat> := [];
    ghost var flagged: seq<Item> := [];
    var i := 0;
    while i < |items|
      invariant 0 <= i <= |items|
      invariant ScanFlagged(rule, items[..i]) == Success(flagged)
      invariant Anonymised(threats) == ThreatsOf(rule, flagged)
    {
      var verdict := Evaluate(rule, items[i]);
      ScanExtend(rule, items, i, flagged);
      if verdict.Failure? {
        ScanFailureSticks(rule, items, i + 1);
        return Failure(verdict.error);
      }
      if verdict.value {
        var id := FreshId();
        var t := ThreatFor(rule, items[i]).(id := id);
        ThreatsAppend(rule, threats, flagged, items[i], id);
        threats := threats + [t];
        flagged := flagged + [items[i]];
      }
      i := i + 1;
    }
    assert items[..|items|] == items;
    r := Success(threats);
  }

  /** One more item extends a scan by its verdict. */
  lemma ScanExtend(rule: Rule, items: seq<Item>, i: nat, fs: seq<Item>)
    requires i < |items| && ScanFlagged(rule, items[..i]) == Success(fs)
    ensures Flags(rule, items[i]).Failure? ==> ScanFlagged(rule, items[..i + 1]) == Failure(Flags(rule, items[i]).error)
    ensures Flags(rule, items[i]) == Success(true) ==> ScanFlagged(rule, items[..i + 1]) == Success(fs + [items[i]])
    ensures Flags(rule, items[i]) == Success(false) ==> ScanFlagged(rule, items[..i + 1]) == Success(fs)
  {
    assert items[..i + 1][..i] == items[..i];
  }

  /** Once a prefix of the items raises, the whole scan ends with that error. */
  lemma {:induction false} ScanFailureSticks(rule: Rule, items: seq<Item>, n: int)
    requires 0 <= n <= |items|
    requires ScanFlagged(rule, items[..n]).Failure?
    ensures ScanFlagged(rule, items) == ScanFlagged(rule, items[..n])
    decreases |items| - n
  {
    if n == |items| {
      assert items[..n] == items;
    } else {
      assert items[..n + 1][..n] == items[..n];
      ScanFailureSticks(rule, items, n + 1);
    }
  }
}
