/**
 * The server's Open Threat Model document (server/app/domain/otm/schema.py): trust zones,
 * components and dataflows with the field constraints and defaults their models declare.
 * Each `New...` function is the model's construction: it either yields a value meeting
 * every constraint, with the declared defaults filled in, or reports a validation error.
 */
module OtmSchema {
  import opened Wrappers
  import opened Values

  /** A construction that broke a declared constraint, naming the model and the field. */
  datatype ValidationError = ValidationError(model: string, field: string)

  const RATING_MIN: int := 0
  const RATING_MAX: int := 100
  const ZONE_TYPE_LITERAL: string := "trust-zone"
  const DEFAULT_OTM_VERSION: string := "0.1.0"

  predicate InRating(v: int) {
    RATING_MIN <= v <= RATING_MAX
  }

  datatype TrustRating = TrustRating(confidentiality: int, integrity: int, availability: int) {
    predicate Valid() {
      InRating(confidentiality) && InRating(integrity) && InRating(availability)
    }
  }

  datatype TrustZone = TrustZone(
    id: string, name: string, description: Option<string>, tags: seq<string>,
    zoneType: string, risk: TrustRating, attributes: map<string, Value>)
  {
    predicate Valid() {
      |name| >= 1 && zoneType == ZONE_TYPE_LITERAL && risk.Valid()
    }
  }

  datatype Component = Component(
    id: string, name: string, description: Option<string>, tags: seq<string>,
    componentType: string, parent: string, attributes: map<string, Value>)
  {
    predicate Valid() {
      |name| >= 1
    }
  }

  datatype DataFlow = DataFlow(
    id: string, name: string, description: Option<string>, tags: seq<string>,
    source: string, destination: string, bidirectional: bool, attributes: map<string, Value>)
  {
    predicate Valid() {
      |name| >= 1
    }
  }

  datatype OTMProject = OTMProject(
    otmVersion: string,
    project: map<string, string>,
    trustZones: seq<TrustZone>,
    components: seq<Component>,
    dataflows: seq<DataFlow>)
  {
    predicate Valid() {
      && (forall i :: 0 <= i < |trustZones| ==> trustZones[i].Valid())
      && (forall i :: 0 <= i < |components| ==> components[i].Valid())
      && (forall i :: 0 <= i < |dataflows| ==> dataflows[i].Valid())
    }
  }

  /** `TrustRating(...)`: all three ratings are required, and each must lie in 0..100. */
  function NewTrustRating(c: Option<int>, i: Option<int>, a: Option<int>): (r: Result<TrustRating, ValidationError>)
    ensures r.Success? <==> c.Some? && i.Some? && a.Some? && InRating(c.value) && InRating(i.value) && InRating(a.value)
    ensures r.Success? ==> r.value == TrustRating(c.value, i.value, a.value) && r.value.Valid()
  {
    if c.None? || !InRating(c.value) then Failure(ValidationError("TrustRating", "confidentiality"))
    else if i.None? || !InRating(i.value) then Failure(ValidationError("TrustRating", "integrity"))
    else if a.None? || !InRating(a.value) then Failure(ValidationError("TrustRating", "availability"))
    else Success(TrustRating(c.value, i.value, a.value))
  }

  /**
   * `TrustZone(...)`: the name must be non-empty and the type, if given, must be the literal
   * "trust-zone"; description defaults to none, tags and attributes to empty.
   */
  function NewTrustZone(id: string, name: string, description: Option<string>, tags: Option<seq<string>>,
                        zoneType: Option<string>, risk: TrustRating, attributes: Option<map<string, Value>>)
    : (r: Result<TrustZone, ValidationError>)
    requires risk.Valid()
    ensures r.Success? <==> |name| >= 1 && (zoneType.None? || zoneType.value == ZONE_TYPE_LITERAL)
    ensures r.Success? ==> r.value.Valid() && r.value.id == id && r.value.name == name && r.value.risk == risk &&
                           r.value.zoneType == ZONE_TYPE_LITERAL && r.value.description == description &&
                           r.value.tags == tags.GetOr([]) && r.value.attributes == attributes.GetOr(map[])
  {
    if |name| < 1 then Failure(ValidationError("TrustZone", "name"))
    else if zoneType.Some? && zoneType.value != ZONE_TYPE_LITERAL then Failure(ValidationError("TrustZone", "type"))
    else Success(TrustZone(id, name, description, tags.GetOr([]), ZONE_TYPE_LITERAL, risk, attributes.GetOr(map[])))
  }

  /** `Component(...)`: the name must be non-empty; the parent is a required plain id, never checked against anything. */
  function NewComponent(id: string, name: string, description: Option<string>, tags: Option<seq<string>>,
                        componentType: string, parent: string, attributes: Option<map<string, Value>>)
    : (r: Result<Component, ValidationError>)
    ensures r.Success? <==> |name| >= 1
    ensures r.Success? ==> r.value.Valid() && r.value.id == id && r.value.name == name &&
                           r.value.componentType == componentType && r.value.parent == parent &&
                           r.value.description == description && r.value.tags == tags.GetOr([]) &&
                           r.value.attributes == attributes.GetOr(map[])
  {
    if |name| < 1 then Failure(ValidationError("Component", "name"))
    else Success(Component(id, name, description, tags.GetOr([]), componentType, parent, attributes.GetOr(map[])))
  }

  /** `DataFlow(...)`: the name must be non-empty; `bidirectional` defaults to false. */
  function NewDataFlow(id: string, name: string, description: Option<string>, tags: Option<seq<string>>,
                       source: string, destination: string, bidirectional: Option<bool>, attributes: Option<map<string, Value>>)
    : (r: Result<DataFlow, ValidationError>)
    ensures r.Success? <==> |name| >= 1
    ensures r.Success? ==> r.value.Valid() && r.value.id == id && r.value.name == name &&
                           r.value.source == source && r.value.destination == destination &&
                           r.value.bidirectional == bidirectional.GetOr(false) &&
                           r.value.description == description && r.value.tags == tags.GetOr([]) &&
                           r.value.attributes == attributes.GetOr(map[])
  {
    if |name| < 1 then Failure(ValidationError("DataFlow", "name"))
    else Success(DataFlow(id, name, description, tags.GetOr([]), source, destination,
                          bidirectional.GetOr(false), attributes.GetOr(map[])))
  }

  /** The `components` validator: it hands the list back as it came, with no check that parents exist. */
  function ValidateParents(components: seq<Component>): (r: Result<seq<Component>, ValidationError>)
    ensures r.Success? && r.value == components
  {
    Success(components)
  }

  /** `OTMProject(...)`: the version defaults to "0.1.0" and the dataflows to none. */
  function NewProject(otmVersion: Option<string>, project: map<string, string>, trustZones: seq<TrustZone>,
                      components: seq<Component>, dataflows: Option<seq<DataFlow>>)
    : (r: Result<OTMProject, ValidationError>)
    ensures r.Success?
    ensures r.value.otmVersion == otmVersion.GetOr(DEFAULT_OTM_VERSION) && r.value.project == project
    ensures r.value.trustZones == trustZones && r.value.components == components && r.value.dataflows == dataflows.GetOr([])
  {
    match ValidateParents(components)
    case Failure(e) => Failure(e)
    case Success(cs) => Success(OTMProject(otmVersion.GetOr(DEFAULT_OTM_VERSION), project, trustZones, cs, dataflows.GetOr([])))
  }

  /** A project whose only component names an owner that appears nowhere is accepted as it is. */
  lemma DanglingParentAccepted()
    ensures var c := NewComponent("c", "Orphan", None, None, "database", "nowhere", None);
      c.Success? && NewProject(None, map[], [], [c.value], None).Success? &&
      NewProject(None, map[], [], [c.value], None).value.components == [c.value] &&
      NewProject(None, map[], [], [c.value], None).value.otmVersion == "0.1.0"
  {
  }
}
