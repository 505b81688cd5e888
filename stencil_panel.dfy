/**
 * The palette (client/src/features/editor/StencilPanel.tsx): the items it lists, the icon
 * each shows, and what a drag from it carries to the canvas.
 */
module StencilPanel {
  import opened Wrappers
  import opened Text
  import opened Diagram

  datatype Icon = Database | Server | Globe | Cloud | Smartphone | Monitor | Shield | Box

  /** The lower-case name that selects each icon (`Box` is the fallback and answers to any other name). */
  function IconName(icon: Icon): string {
    match icon
    case Database => "database"
    case Server => "server"
    case Globe => "globe"
    case Cloud => "cloud"
    case Smartphone => "smartphone"
    case Monitor => "monitor"
    case Shield => "shield"
    case Box => "box"
  }

  const NAMED_ICONS: set<string> := {"database", "server", "globe", "cloud", "smartphone", "monitor", "shield"}

  /** `getIconByName`: the icon whose name is the template's name in lower case, `Box` for any other name. */
  function IconByName(name: string): (r: Icon)
    ensures r == Box <==> Lower(name) !in NAMED_ICONS
    ensures r != Box ==> IconName(r) == Lower(name)
  {
    match Lower(name)
    case "database" => Database
    case "server" => Server
    case "globe" => Globe
    case "cloud" => Cloud
    case "smartphone" => Smartphone
    case "monitor" => Monitor
    case "shield" => Shield
    case _ => Box
  }

  /** Every icon is found again under its own name. */
  lemma IconNameRoundTrip(icon: Icon)
    ensures IconByName(IconName(icon)) == icon
  {
    var n := IconName(icon);
    assert Lower(n) == n;
  }

  /** The lookup ignores case. */
  lemma IconByNameIgnoresCase(name: string)
    ensures IconByName(Lower(name)) == IconByName(name)
  {
    LowerIdempotent(name);
  }

  /** A component template from the template repository (`ComponentTemplate`). */
  datatype ComponentTemplate = ComponentTemplate(
    labelText: string, nodeType: string, otmType: Option<string>, iconName: string, defaultData: NodeData)

  datatype StencilItem = StencilItem(
    labelText: string, nodeType: string, otmType: Option<string>, icon: Icon, defaultData: NodeData)

  /** The one built-in stencil: a trust zone rated 50 in every dimension. */
  const TRUST_ZONE_STENCIL: StencilItem :=
    StencilItem("Trust Zone", ZONE_TYPE, None, Shield,
                NO_DATA.(labelText := Some("New Trust Zone"), risk := Some(FullRisk(50, 50, 50))))

  /** The components offered when no template has been loaded. */
  const FALLBACK_STENCILS: seq<StencilItem> := [
    StencilItem("Web Server", COMPONENT_TYPE, Some("web-server"), Globe, ComponentData("Web Server", "web-server")),
    StencilItem("Database", COMPONENT_TYPE, Some("database"), Database, ComponentData("Database", "database")),
    StencilItem("Cloud Storage", COMPONENT_TYPE, Some("storage"), Cloud, ComponentData("Storage", "storage"))
  ]

  function TemplateItem(t: ComponentTemplate): StencilItem {
    StencilItem(t.labelText, t.nodeType, t.otmType, IconByName(t.iconName), t.defaultData)
  }

  function TemplateItems(templates: seq<ComponentTemplate>): (r: seq<StencilItem>)
    ensures |r| == |templates|
    ensures forall k :: 0 <= k < |r| ==> r[k] == TemplateItem(templates[k])
  {
    if templates == [] then [] else [TemplateItem(templates[0])] + TemplateItems(templates[1..])
  }

  /**
   * The palette: the trust zone first, then one item per template in template order; with
   * no template at all, the trust zone and the three fallback components.
   */
  function PaletteItems(templates: seq<ComponentTemplate>): (r: seq<StencilItem>)
    ensures |r| == if templates == [] then 1 + |FALLBACK_STENCILS| else 1 + |templates|
    ensures r[0] == TRUST_ZONE_STENCIL
    ensures forall k :: 0 <= k < |templates| ==> r[k + 1] == TemplateItem(templates[k])
    ensures templates == [] ==> r[1..] == FALLBACK_STENCILS
  {
    var items := [TRUST_ZONE_STENCIL] + TemplateItems(templates);
    if |items| > 1 then items else items + FALLBACK_STENCILS
  }

  /** What a drag carries: `{ type, data }`, the node type and the data the new node starts with. */
  datatype DragPayload = DragPayload(nodeType: string, data: NodeData)

  function OnDragStart(item: StencilItem): DragPayload {
    DragPayload(item.nodeType, item.defaultData)
  }

  /** The data the fallback components start with: their name and their OTM type. */
  function ComponentData(labelText: string, otmType: string): NodeData {
    NO_DATA.(labelText := Some(labelText), otmType := Some(otmType))
  }

  /**
   * Whatever the templates, the palette's first item drags a trust zone named "New Trust
   * Zone" rated 50 in every dimension. Each template's item drags the template's node type
   * and default data; with no templates, the three fallbacks drag a web server, a database
   * and a storage component, each named and typed.
   */
  lemma PaletteOffersZone(templates: seq<ComponentTemplate>)
    ensures var p := OnDragStart(PaletteItems(templates)[0]);
      p.nodeType == ZONE_TYPE && p.data.risk == Some(FullRisk(50, 50, 50)) && p.data.risk.value.Complete() &&
      p.data == NO_DATA.(labelText := Some("New Trust Zone"), risk := Some(FullRisk(50, 50, 50)))
    ensures forall k :: 0 <= k < |templates| ==>
      OnDragStart(PaletteItems(templates)[k + 1]) == DragPayload(templates[k].nodeType, templates[k].defaultData)
    ensures templates == [] ==>
      OnDragStart(PaletteItems(templates)[1]) == DragPayload(COMPONENT_TYPE, ComponentData("Web Server", "web-server")) &&
      OnDragStart(PaletteItems(templates)[2]) == DragPayload(COMPONENT_TYPE, ComponentData("Database", "database")) &&
      OnDragStart(PaletteItems(templates)[3]) == DragPayload(COMPONENT_TYPE, ComponentData("Storage", "storage"))
  {
    if templates == [] {
      var r := PaletteItems(templates);
      assert r[1..] == FALLBACK_STENCILS;
      assert r[1] == FALLBACK_STENCILS[0] && r[2] == FALLBACK_STENCILS[1] && r[3] == FALLBACK_STENCILS[2];
    }
  }
}
