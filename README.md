# Threat model platform: a verified model of its core

The platform draws a system as a diagram of trust zones, components and dataflows. It
turns that diagram into an Open Threat Model (OTM) document and back, and runs threat
rules over the document. This project models that core in Dafny and proves what each
piece promises.

The browser client (TypeScript) is covered by these modules:

- `Diagram`: the diagram store. This is its node and edge records, the shallow merge of
  a node-data patch, selection, and the initial diagram. The store is a class whose
  three fields change only through its methods.
- `PropertiesPanel`: the properties panel. This is the selected-node lookup, text and
  tag edits, and the risk sliders.
- `StencilPanel`: the stencil palette. This is icon lookup, the palette merge with its
  fallback, and the drag payload.
- `TrustZoneNode`: the risk badge of a trust zone.
- `Layout`: the layout coordinate conversion around the external layered-layout
  library.
- `TopBar`: the file actions of the top bar. This is the OTM import with its guards,
  JSON load, new model, and auto-layout.

The server (Python) is covered by these modules:

- `OtmSchema`: the OTM document models, with their constraints and defaults.
- `Mapper`: the diagram-to-OTM export.
- `AnalysisSchema` and `RuleSchema`: the analysis and rule-definition models.
- `Catalog`: the rule catalog. This is the data-driven rule with its field paths and
  six operators, and the three built-in rules.
- `AnalysisService`: the analysis run, which aggregates threats and builds the
  severity summary.

Three modules are shared:

- `Wrappers` holds the `Option` and `Result` types.
- `Text` holds the string functions both languages use. These are trim, split, join,
  ASCII lower-casing and replace-all.
- `Values` holds a dynamic JSON/Python value. It gives Python and JavaScript
  truthiness, and Python `==` (where `True == 1`).

Form follows the source:

- Code that changes state step by step is written as methods with loops and
  invariants. This is the store, the top bar handlers, the graph building, the export
  loops, the criteria and rule loops, and the analysis run.
- Each such method is proved equal to a specification function. The properties are
  proved about that function.
- Code that only computes a value is written as functions and lemmas.

These inputs are parameters:

- the user's confirmation in dialogs;
- the parsed file contents;
- the layout library's placement;
- the report timestamp.

Threat ids are `uuid4` values in the source. Here they are arbitrary strings drawn
with `:|`. The rule-check and analysis methods state that their threats equal the
specification once every id is blanked (`Catalog.Anonymised`).

Where this model follows the code rather than the design description, the code wins:

- The OTM import keeps edges whose endpoints do not exist.
- The OTM import copies a missing risk through as missing; it does not default it.
- The OTM import resolves an object `parent` to its `trustZone`, else its
  `component`, else nothing.
- The import keeps no list of warnings.
- The model of the server's `OTMProject` uses the second `dataflows` declaration
  (`List[DataFlow]`, server/app/domain/otm/schema.py:100). It overrides the first
  (`List[Dict]`, line 88).
- In `analyze`, the `try` around `GenericRule(rule_def)` can never catch anything,
  because the constructor only copies fields. Every definition therefore becomes a
  rule.

## Model

| member | source | states |
|---|---|---|
| Diagram.Risk.With | client/src/features/editor/PropertiesPanel.tsx:106 | setting one risk dimension gives it the new value and leaves the other two as they were |
| Diagram.MergeKeys | client/src/store/diagramStore.ts:78 | the merged data holds exactly the keys of the old data and of the patch |
| Diagram.MergeIdentityAndIdempotence | client/src/store/diagramStore.ts:78 | merging an empty patch changes nothing; merging the same patch twice equals merging it once |
| Diagram.MergeAssociative | client/src/store/diagramStore.ts:78 | two successive patches equal one merged patch in which the later one wins |
| Diagram.UpdateOne | client/src/store/diagramStore.ts:76-79 | updating a node changes at most its data; id, type, position, owner and style are untouched |
| Diagram.UpdatedNodesAt | client/src/store/diagramStore.ts:74-81 | the list keeps its length; the node whose id matches gets the old data overlaid with the patch; every other node is returned unchanged |
| Diagram.UpdatedNodesKeepIds | client/src/store/diagramStore.ts:76-80 | the updated list has the same ids in the same order |
| Diagram.UpdateUnknownId | client/src/store/diagramStore.ts:76-80 | an id that no node has leaves the node list equal to the old one |
| Diagram.InitialWellContained | client/src/store/diagramStore.ts:39-56 | the initial diagram is zone tz-1 then component c-1, and every owner it names is one of its zones |
| Diagram.DiagramStore.constructor | client/src/store/diagramStore.ts:38-57 | the store starts with the initial nodes, no edges and no selection |
| Diagram.DiagramStore.SetSelectedNode | client/src/store/diagramStore.ts:70-72 | only the selection changes, to the given id |
| Diagram.DiagramStore.UpdateNodeData | client/src/store/diagramStore.ts:74-82 | the nodes become the merged update of the old nodes; edges and selection are untouched |
| Diagram.DiagramStore.LoadDiagram | client/src/features/editor/TopBar.tsx:12 | the store call that replaces the nodes and edges with the given ones, and leaves the selection alone |
| PropertiesPanel.FindNode | client/src/features/editor/PropertiesPanel.tsx:9 | the result is the first position holding the id, or none when no node has it |
| PropertiesPanel.SelectedNode | client/src/features/editor/PropertiesPanel.tsx:9-18 | a node is shown iff a selection exists and some node has that id; the node shown is the first one with the id |
| PropertiesPanel.TextEdit | client/src/features/editor/PropertiesPanel.tsx:21-23 | a name or type edit sends a patch with exactly one key, holding the typed text |
| PropertiesPanel.CleanPiecesExact | client/src/features/editor/PropertiesPanel.tsx:80 | every piece left is the trim of an input piece, and every input piece whose trim is not empty is left as its trim |
| PropertiesPanel.CleanPiecesConcat | client/src/features/editor/PropertiesPanel.tsx:80 | cleaning keeps the order: a concatenation of pieces cleans to the concatenation of the cleaned parts |
| PropertiesPanel.CleanPiecesOne | client/src/features/editor/PropertiesPanel.tsx:80 | one piece cleans to its trim, or to nothing when the trim is empty |
| PropertiesPanel.CleanPiecesTidy | client/src/features/editor/PropertiesPanel.tsx:80 | every piece left is non-empty and trimmed, and holds no comma unless an input piece did |
| PropertiesPanel.ParseTags | client/src/features/editor/PropertiesPanel.tsx:80 | parsed tags are non-empty, have no surrounding blanks and contain no comma; every tag is the trim of a comma-separated piece of the text, and every piece that is not all white space gives its trim as a tag |
| PropertiesPanel.ParseTagsConcat | client/src/features/editor/PropertiesPanel.tsx:80 | the tags of `a,b` are the tags of `a` followed by the tags of `b`, so the order of the text is kept |
| PropertiesPanel.TagsRoundTrip | client/src/features/editor/PropertiesPanel.tsx:78-80 | parsing the shown text of non-empty, trimmed, comma-free tags gives back the same tags in order |
| PropertiesPanel.SliderPosition | client/src/features/editor/PropertiesPanel.tsx:103 | the slider holds its value within 0..100 and keeps a value already in range |
| PropertiesPanel.RiskEdit | client/src/features/editor/PropertiesPanel.tsx:94-107 | the corrected slider edit of the Findings row (not the code as written): the edited dimension takes the new value; the others keep the current risk's values, or 0 when the zone has no risk |
| PropertiesPanel.RiskEditAgrees | client/src/features/editor/PropertiesPanel.tsx:94-107 | on a zone that has a risk object, the corrected edit equals the edit as written |
| PropertiesPanel.RiskEditShown | client/src/features/editor/PropertiesPanel.tsx:95-106 | after an edit the slider shows the new value in the edited dimension and the prior shown value in the others |
| PropertiesPanel.RiskEditComplete | client/src/features/editor/PropertiesPanel.tsx:94-107 | the corrected edit keeps a complete risk complete, and makes a complete one when the zone had none |
| PropertiesPanel.RiskEditAsWrittenIncomplete | client/src/features/editor/PropertiesPanel.tsx:94-107 | the edit as written, on a zone without risk, leaves two dimensions missing |
| PropertiesPanel.EditPatch | client/src/features/editor/PropertiesPanel.tsx:50-107 | every panel edit sends a patch with exactly one key; a risk edit sends the risk as written, `{ ...(risk || {}), [d]: v }` |
| PropertiesPanel.ApplyEdit | client/src/features/editor/PropertiesPanel.tsx:45-110 | an edit updates the selected node with its as-written patch when the panel, with the zone icon imported, shows that input; otherwise the nodes are unchanged; edges and selection are never touched |
| PropertiesPanel.ZoneEditsAsWritten | client/src/features/editor/PropertiesPanel.tsx:88-92 | as written, a selected zone offers no edit at all, because its branch renders an icon the file does not import |
| PropertiesPanel.ZoneEditsShown | client/src/features/editor/PropertiesPanel.tsx:44-114 | with the icon imported, a selected zone offers exactly its name and its three risk sliders |
| PropertiesPanel.OtherEditsAsWritten | client/src/features/editor/PropertiesPanel.tsx:44-85 | nodes other than zones are offered the same edits with or without the import |
| PropertiesPanel.Close | client/src/features/editor/PropertiesPanel.tsx:32 | the close button clears the selection and leaves nodes and edges alone |
| StencilPanel.IconByName | client/src/features/editor/StencilPanel.tsx:23-33 | the icon is Box exactly when the lower-cased name is none of the seven names; otherwise it is the icon of that name |
| StencilPanel.IconNameRoundTrip | client/src/features/editor/StencilPanel.tsx:23-33 | every icon is found again under its own name |
| StencilPanel.IconByNameIgnoresCase | client/src/features/editor/StencilPanel.tsx:24 | icon lookup ignores case |
| StencilPanel.TemplateItems | client/src/features/editor/StencilPanel.tsx:50-56 | one item per template, in order, with the template's fields copied |
| StencilPanel.PaletteItems | client/src/features/editor/StencilPanel.tsx:48-65 | the palette starts with the trust zone stencil; templates follow in order; with no templates exactly the three fallbacks are appended (4 items), otherwise none |
| StencilPanel.PaletteOffersZone | client/src/features/editor/StencilPanel.tsx:14-65 | dragging the first item carries the zone type and the data "New Trust Zone" rated 50/50/50; a template's item carries the template's type and default data; with no templates the three fallbacks carry the component type and their name and OTM type |
| TrustZoneNode.RoundThird | client/src/features/editor/nodes/TrustZoneNode.tsx:10 | Math.round of an integer sum over 3 is (sum + 1) div 3 |
| TrustZoneNode.AverageRiskValue | client/src/features/editor/nodes/TrustZoneNode.tsx:9-10 | the badge shows (sum + 1) div 3 for a complete risk, 0 for a missing risk, and no number iff a dimension is missing |
| TrustZoneNode.AverageRiskBounds | client/src/features/editor/nodes/TrustZoneNode.tsx:10 | ratings within 0..100 give an average within 0..100 |
| TrustZoneNode.HighlightThreshold | client/src/features/editor/nodes/TrustZoneNode.tsx:9-28 | the badge is red (average above 70) iff the risk is complete and its sum is at least 212 |
| Layout.Dimension | client/src/lib/layout.ts:25-26 | a size is the measured value if non-zero, else the numeric style value if non-zero, else the default |
| Layout.NodeEntry | client/src/lib/layout.ts:10-29 | zones register as containers with padding 40/40/60/40 and their label; every other node registers as a leaf with a non-zero size |
| Layout.RegisteredNodes | client/src/lib/layout.ts:10-29 | the registered ids are exactly the ids of the nodes |
| Layout.RegisteredAt | client/src/lib/layout.ts:10-29 | a node registered last under its id keeps its own registration |
| Layout.ParentLinks | client/src/lib/layout.ts:32-36 | only nodes with an owner get a containment link |
| Layout.LinkedAt | client/src/lib/layout.ts:32-36 | a node with an owner, last under its id, is linked to that owner |
| Layout.Links | client/src/lib/layout.ts:38-40 | one layout link per edge, in order, from source to target |
| Layout.BuildGraph | client/src/lib/layout.ts:6-40 | the three registration loops build exactly the direction, registrations, containment links and links above |
| Layout.SetNodes | client/src/lib/layout.ts:10-29 | the `setNode` loop registers exactly the node entries above |
| Layout.SetParents | client/src/lib/layout.ts:32-36 | the `setParent` loop records exactly the containment links above |
| Layout.SetEdges | client/src/lib/layout.ts:38-40 | the `setEdge` loop records exactly one link per edge, in order |
| Layout.TopLeft | client/src/lib/layout.ts:50-54 | the top-left corner is the centre less half the size in each axis |
| Layout.Handles | client/src/lib/layout.ts:46-78 | direction LR gives target Left and source Right; any other direction gives Top and Bottom |
| Layout.LayoutNodeKeeps | client/src/lib/layout.ts:75-89 | layout changes only the position, the handles and the style width and height; every other field and style key is kept |
| Layout.PlacementRecovered | client/src/lib/layout.ts:56-72 | with a placed owner the position is relative to the owner's top-left corner; without an owner, or with an unplaced one, it is the absolute top-left |
| Layout.OwnerWarnings | client/src/lib/layout.ts:60-72 | a warning is logged only for a node whose owner the layout did not place |
| Layout.GetLayoutedElements | client/src/lib/layout.ts:5-93 | builds the graph; returns one laid-out node per input node, in order, the edges unchanged, and the warnings |
| Layout.LayoutKeepsIds | client/src/lib/layout.ts:44-90 | layout keeps every node id, in order; no node is dropped |
| TopBar.ResolveParent | client/src/features/editor/TopBar.tsx:233-239 | a string parent is kept; an object gives its non-empty trustZone, else its non-empty component, else none; anything else gives none |
| TopBar.ZoneNodes | client/src/features/editor/TopBar.tsx:221-229 | zone i is a 400×400 zone node at (500·i, 0) with id, name, description and risk copied |
| TopBar.ComponentNodes | client/src/features/editor/TopBar.tsx:231-249 | component i is a component node at (50+20·i, 50+50·i), confined to its resolved owner, with id, name, type and tags copied |
| TopBar.FlowEdges | client/src/features/editor/TopBar.tsx:251-258 | one edge per dataflow, in order: id and source copied, destination as target, name as label, endpoints never checked |
| TopBar.ConvertOtmToDiagram | client/src/features/editor/TopBar.tsx:217-261 | the diagram becomes the zone nodes followed by the component nodes, with the flow edges |
| TopBar.ImportIds | client/src/features/editor/TopBar.tsx:221-249 | the imported node ids are the zone ids followed by the component ids, verbatim |
| TopBar.ImportPositionsDistinct | client/src/features/editor/TopBar.tsx:221-249 | no two imported zones, and no two imported components, share a position |
| TopBar.HandleImportOtm | client/src/features/editor/TopBar.tsx:80-110 | the import is applied iff the user confirms (or the diagram is empty), the file parses, and otmVersion and trustZones are present; otherwise the diagram is untouched |
| TopBar.HandleLoadJson | client/src/features/editor/TopBar.tsx:43-72 | a saved diagram is loaded iff confirmed (or the diagram is empty) and the file has both nodes and edges; otherwise the diagram is untouched |
| TopBar.HandleNew | client/src/features/editor/TopBar.tsx:21-26 | a confirmed new model empties the diagram; otherwise nothing changes |
| TopBar.HandleAutoLayout | client/src/features/editor/TopBar.tsx:145-152 | auto-layout lays the diagram out top to bottom and replaces the nodes with the result; edges are kept |
| OtmSchema.NewTrustRating | server/app/domain/otm/schema.py:19-23 | a rating is built iff all three values are given and within 0..100 |
| OtmSchema.NewTrustZone | server/app/domain/otm/schema.py:27-40 | a zone is built iff the name is non-empty and the type, if given, is "trust-zone"; type, description, tags and attributes take their defaults |
| OtmSchema.NewComponent | server/app/domain/otm/schema.py:42-55 | a component is built iff the name is non-empty; the parent is a plain id; tags and attributes default to empty |
| OtmSchema.NewDataFlow | server/app/domain/otm/schema.py:64-74 | a dataflow is built iff the name is non-empty; bidirectional defaults to false |
| OtmSchema.ValidateParents | server/app/domain/otm/schema.py:90-98 | the components validator accepts every list and returns it unchanged |
| OtmSchema.NewProject | server/app/domain/otm/schema.py:78-100 | a project is always built; the version defaults to "0.1.0" and the dataflows to none |
| OtmSchema.DanglingParentAccepted | server/app/domain/otm/schema.py:90-98 | a component whose parent exists nowhere is accepted into a project |
| Mapper.OwnerOf | server/app/services/mapper_service.py:51 | a component with a truthy owner keeps it verbatim; any other gets "default-trust-zone" |
| Mapper.MapZone | server/app/services/mapper_service.py:30-42 | a zone node maps iff its (default 10/10/10) risk is complete and in range and its label is non-empty; id, label, description and risk carry over |
| Mapper.MapComponent | server/app/services/mapper_service.py:44-61 | a component node maps iff its label is non-empty; type defaults to "generic-client", tags and attributes to empty, and the owner is resolved |
| Mapper.FlowName | server/app/services/mapper_service.py:71 | the flow name is the edge label, else the data label, else "Flow {source} -> {target}"; it is never empty |
| Mapper.MapFlowSucceeds | server/app/services/mapper_service.py:64-81 | every edge maps to a dataflow with its id and endpoints; bidirectional defaults to false and attributes to empty |
| Mapper.WithDefaultZone | server/app/services/mapper_service.py:85-90 | the default zone is appended iff no zone has its id; the result always has that id and keeps the given zones first |
| Mapper.ToOtm | server/app/services/mapper_service.py:13-98 | the two loops, the default zone and the project equal the export function, including its first validation error |
| Mapper.MapNodesCorrespond | server/app/services/mapper_service.py:20-61 | node mapping succeeds iff every zone and component node maps; zones and components then correspond one to one, in order, to the zone and component nodes; other nodes are dropped |
| Mapper.AddNode | server/app/services/mapper_service.py:24-61 | one pass of the node loop succeeds iff the node is exportable; a zone node appends its zone, a component node its component, and any other node adds nothing |
| Mapper.MapNodesSucceeds | server/app/services/mapper_service.py:20-61 | the node loop finishes iff every node is exportable |
| Mapper.ZonesCorrespond | server/app/services/mapper_service.py:30-42 | the exported zones are the zone nodes mapped one to one, in order |
| Mapper.ComponentsCorrespond | server/app/services/mapper_service.py:44-61 | the exported components are the component nodes mapped one to one, in order |
| Mapper.MapEdgesCorrespond | server/app/services/mapper_service.py:64-81 | exactly one dataflow per edge, in order |
| Mapper.ExportedZones | server/app/services/mapper_service.py:30-42 | every exported zone is valid and carries the id of a node |
| Mapper.ExportedComponents | server/app/services/mapper_service.py:44-61 | every exported component is valid and carries the id of a node |
| Mapper.ExportShape | server/app/services/mapper_service.py:83-98 | a successful export is valid, has version "0.1.0" and the project id and name, contains the default zone, has one dataflow per edge, and introduces no id but the default zone's |
| AnalysisSchema.ParseSeverity | server/app/domain/analysis/schema.py:9 | a severity is accepted only under its own name |
| AnalysisSchema.SeverityRoundTrip | server/app/domain/analysis/schema.py:9 | every severity is accepted under its name, and exactly the four names are accepted |
| AnalysisSchema.ParseStatus | server/app/domain/analysis/schema.py:10 | a status is accepted only under its own name |
| AnalysisSchema.StatusRoundTrip | server/app/domain/analysis/schema.py:10 | every status is accepted under its name, and exactly the three names are accepted |
| AnalysisSchema.NewThreat | server/app/domain/analysis/schema.py:4-12 | a threat keeps the given fields; severity defaults to medium and status to open |
| RuleSchema.ParseOperator | server/app/domain/analysis/rule_schema.py:8 | an operator is accepted only under its own name |
| RuleSchema.OperatorRoundTrip | server/app/domain/analysis/rule_schema.py:8 | every operator is accepted under its own name |
| RuleSchema.ParseTarget | server/app/domain/analysis/rule_schema.py:17 | a target is accepted only under its own name |
| RuleSchema.TargetRoundTrip | server/app/domain/analysis/rule_schema.py:17 | both targets are accepted under their own names |
| RuleSchema.NewRuleCriteria | server/app/domain/analysis/rule_schema.py:6-9 | a criterion is built iff its operator is absent or one of the six; the operator defaults to equals and the value to none |
| RuleSchema.NewRuleDefinition | server/app/domain/analysis/rule_schema.py:11-18 | a definition is built iff the severity is one of the four and the target, if given, is component or trustZone; the target defaults to component |
| Catalog.GetFieldValue | server/app/services/rules/catalog.py:24-34 | walking the dotted path equals the field-path function: key lookup on dicts, attribute lookup on model instances, none once a step cannot go on |
| Catalog.NullStays | server/app/services/rules/catalog.py:26-34 | once a step yields none, the whole path yields none |
| Catalog.FieldValueCompose | server/app/services/rules/catalog.py:26-33 | following a path in two pieces equals following the whole path |
| Catalog.AttributePath | server/app/services/rules/catalog.py:24-34 | the path attributes.key reads the component's attribute under key, or none |
| Catalog.PyIn | server/app/services/rules/catalog.py:49-52 | Python `in`: a substring test for strings (raising for a non-string operand), element equality for lists, key lookup for dicts; raises on non-containers |
| Catalog.CriterionHolds | server/app/services/rules/catalog.py:40-56 | the meaning of each of the six operators, including the boolean-against-string case of equals and the falsy cases of contains and not_contains |
| Catalog.MissingExistsComplement | server/app/services/rules/catalog.py:53-56 | missing and exists are exact complements |
| Catalog.EqualsBoolIgnoresCase | server/app/services/rules/catalog.py:43-44 | equals of a string against a boolean ignores the string's case |
| Catalog.EqualsNotEqualsOpposite | server/app/services/rules/catalog.py:41-48 | outside the boolean-against-string case, not_equals is the negation of equals |
| Catalog.CriteriaAllHold | server/app/services/rules/catalog.py:36-58 | the criteria hold iff every criterion holds (so an empty list matches) |
| Catalog.CriteriaFailAt | server/app/services/rules/catalog.py:36-58 | a criterion that fails after all earlier ones hold makes the match fail |
| Catalog.CriteriaFailureWitness | server/app/services/rules/catalog.py:36-58 | a failed match has a first failing criterion with all earlier ones holding |
| Catalog.MatchCriteria | server/app/services/rules/catalog.py:36-58 | the early-return loop equals the conjunction function, errors included |
| Catalog.ThreatFor | server/app/services/rules/catalog.py:60-75 | a reported threat carries the rule's id, title and severity, status open, and the item's id |
| Catalog.FlaggedItems | server/app/services/rules/catalog.py:60-75 | the flagged items are items whose check says yes, and every such item is among them |
| Catalog.ScanSucceeds | server/app/services/rules/catalog.py:60-75 | a scan succeeds iff no item's check raises |
| Catalog.ScanKeepsFlagged | server/app/services/rules/catalog.py:60-75 | a successful scan yields exactly the flagged items, in order |
| Catalog.BuiltinNeverFails | server/app/services/rules/catalog.py:78-165 | the three built-in rules never raise |
| Catalog.NoCriteriaFlagsAll | server/app/services/rules/catalog.py:60-75 | a definition without criteria flags every target |
| Catalog.UnencryptedStorageExamples | server/app/services/rules/catalog.py:84-105 | RULE-001 ignores non-store types; it flags a store with no encrypted key; a true (any case) encrypted value clears the flag |
| Catalog.HighRiskIgnoresAvailability | server/app/services/rules/catalog.py:125 | RULE-002 flags a zone iff confidentiality or integrity is below 20; availability plays no part |
| Catalog.OwnerTagClearsFlag | server/app/services/rules/catalog.py:142-158 | RULE-003 does not flag a component with an owner: tag |
| Catalog.GenericDescriptionNamesItem | server/app/services/rules/catalog.py:69 | a description starting with {name} names the item; the mitigation is the definition's |
| Catalog.Check | server/app/services/rules/catalog.py:60-75 | the check loop fails iff the scan fails, with the same error; otherwise its threats, ids blanked, are one per flagged target, in order |
| AnalysisService.RulesToRun | server/app/services/analysis_service.py:14-22 | the built-in rules come first, then one generic rule per definition in order; with no definitions only the built-in rules run |
| AnalysisService.CollectAppend | server/app/services/analysis_service.py:24-30 | running two rule lists one after the other collects the threats of each, concatenated |
| AnalysisService.CollectOne | server/app/services/analysis_service.py:24-30 | a rule contributes its threats if its check succeeds and nothing if it raises |
| AnalysisService.FaultIsolation | server/app/services/analysis_service.py:24-30 | a rule that raises removes only its own threats; the others are collected as if it were absent |
| AnalysisService.CollectedFromRules | server/app/services/analysis_service.py:24-27 | every collected threat carries the id and severity of a rule that ran |
| AnalysisService.ReportedByRule | server/app/services/rules/catalog.py:60-75 | every threat a rule's check reports carries that rule's id and severity |
| AnalysisService.BuiltinsFirst | server/app/services/analysis_service.py:14-27 | the threats start with those of RULE-001, RULE-002 and RULE-003, in that order, none of which raises |
| AnalysisService.SummaryOf | server/app/services/analysis_service.py:33-39 | the summary has exactly the keys total, critical, high, medium and low; total is the threat count and each severity has its own count |
| AnalysisService.CountsAddUp | server/app/services/analysis_service.py:33-39 | the four severity counts add up to the total |
| AnalysisService.ProjectIdOf | server/app/services/analysis_service.py:42 | the project id is the project's "id" entry, or "unknown" |
| AnalysisService.RunRules | server/app/services/analysis_service.py:24-30 | the loop with its caught failures collects, ids blanked, exactly the collected threats |
| AnalysisService.Analyze | server/app/services/analysis_service.py:10-46 | the report has the project id, the given timestamp, the collected threats (ids blanked) and their summary |
| Text.Trim | client/src/features/editor/PropertiesPanel.tsx:80 | a trimmed string has no white space at either end and is no longer than the original |
| Text.TrimCutsSpaces | client/src/features/editor/PropertiesPanel.tsx:80 | the trimmed string is the slice of the original that starts after its leading white space, and everything cut off at either end is white space |
| Text.TrimAddsNothing | client/src/features/editor/PropertiesPanel.tsx:80 | trimming brings in no character the original lacks |
| Text.Split | client/src/features/editor/PropertiesPanel.tsx:80 | splitting yields at least one piece, no piece holds the separator, and joining the pieces gives the string back |
| Text.SplitConcat | client/src/features/editor/PropertiesPanel.tsx:80 | splitting `a` + separator + `b` gives the pieces of `a` followed by the pieces of `b` |
| Text.SplitJoin | client/src/features/editor/PropertiesPanel.tsx:78-80 | splitting undoes joining when no part holds the separator |
| Text.Lower | client/src/features/editor/StencilPanel.tsx:24 | lower-casing keeps the length, maps each upper-case ASCII letter to its lower-case letter and keeps every other character |
| Text.LowerIdempotent | client/src/features/editor/StencilPanel.tsx:24 | lower-casing twice equals lower-casing once |
| Text.ReplaceLeading | server/app/services/rules/catalog.py:69 | replacing a leading placeholder that does not occur again puts the replacement in its place |
| Values.TruthinessDiffers | server/app/services/rules/catalog.py:49-52 | Python and JavaScript truthiness differ exactly on the empty list and the empty dict |
| Values.PyEqReflexive | server/app/services/rules/catalog.py:45-48 | Python equality of values is reflexive |
| Values.PyEqSymmetric | server/app/services/rules/catalog.py:45-48 | Python equality of values is symmetric |

## Left out

- The layout library's own algorithm (ranking, placement, container sizing) is not modelled. Its result is a parameter: a centre and size per node id. `Layout.GetLayoutedElements` requires that every node is placed, as the library guarantees. The library's side effects are not modelled either: it creates owners that `setParent` names but never registers, and it raises on a containment cycle.
- Changes applied through `applyNodeChanges` and `applyEdgeChanges` are not modelled. They are foreign library code.
- The store's `loadDiagram`, `addNode` and `analysisReport` are not defined in `diagramStore.ts`. `loadDiagram` is modelled only as replacing nodes and edges and keeping the selection. Resetting the analysis report after a load is not modelled.
- Random ids (`uuid4`, `crypto.randomUUID`) and the clock are not modelled. Ids are arbitrary values and the timestamp is a parameter.
- File reading, YAML and JSON parsing, downloads, and the confirm, prompt and alert dialogs are not modelled. The parsed document and the user's answer are parameters. A parse error is the `None` document.
- `handleSaveJSON`, `handleExportOTM`, `handleSaveToGitHub`, `handleImportIaC` and `handleAnalyze` are not modelled. They only move data over the network or to a download. The export and analysis they call on the server are modelled.
- The JSX rendering and style tables are not modelled.
- A JSON load or OTM import whose `nodes`, `edges`, `trustZones`, `components` or `dataflows` is present and truthy but not a list is not modelled. The source would fail at run time there.
- `Catalog.IsEncrypted`: with several attribute keys that lower-case to "encrypted", the source keeps the last one in dict order. The model requires all of them to say true. The two agree whenever there is at most one such key.
- `Catalog.GetFieldValue` does not model attribute lookup on strings, lists and numbers. On those values `hasattr` finds methods such as `upper`. The model stops with none there.
- `Layout.Dimension` covers only a numeric style width or height. Other style values count as absent.
- `TopBar.ResolveParent` covers only string values in a parent object's `trustZone` and `component`.
- `Catalog.GetFieldValue` does not model `hasattr` finding methods on pydantic model instances (a path step `json` or `dict` on a component yields a bound method, so `exists` holds there). The model reads only the declared fields of those objects.
- The `print` of a rule that fails to build or to run (server/app/services/analysis_service.py:22,29) is not modelled. It is console output only; the rule's threats are dropped as modelled.
- The `console.error` calls of the JSON load and OTM import handlers (client/src/features/editor/TopBar.tsx:65,104) are not modelled. They are console output only; the failed parse is the `None` document.
- `Text.Lower` lower-cases ASCII letters only. Python and JavaScript lower-case all of Unicode.
- The admin store (`adminStore.ts`) is not modelled. It holds only setters over persisted state. Its operator list lacks `not_contains`, which the server accepts (`RuleSchema.ParseOperator`).

## Findings

| source | as written | input that shows it | evidently intended | confidence | as-written member | corrected member |
|---|---|---|---|---|---|---|
| client/src/features/editor/PropertiesPanel.tsx:94-107 | a risk slider on a zone without a risk object writes a risk holding only the moved dimension (`{ ...{}, [riskType]: v }`) | once the zone icon of the next row is imported, a zone without `risk` (an OTM import copies a missing `risk` through, client/src/features/editor/TopBar.tsx:226), confidentiality slider moved to 30: the risk becomes `{confidentiality: 30}`; the badge average becomes NaN, and the export fails validation because integrity and availability are missing | start from a complete risk (0/0/0, the badge's own default at client/src/features/editor/nodes/TrustZoneNode.tsx:9), so the edit always leaves all three dimensions set | not executed | PropertiesPanel.RiskEditAsWrittenIncomplete | PropertiesPanel.RiskEditComplete |
| client/src/features/editor/PropertiesPanel.tsx:91 | the zone branch renders `<ShieldAlert size={14}/>`, but the file imports only `X` and `Settings2` from the icon library | select any trust zone: rendering the panel reaches the undeclared `ShieldAlert` and throws, so no zone input (name or risk slider) is shown | import `ShieldAlert` with the other icons, so a zone offers its name and its three sliders | not executed | PropertiesPanel.ZoneEditsAsWritten | PropertiesPanel.ZoneEditsShown |
