/**
 * The properties panel (client/src/features/editor/PropertiesPanel.tsx): which node is
 * being edited, and the partial data objects its inputs hand to `updateNodeData`.
 */
module PropertiesPanel {
  import opened Wrappers
  import opened Text
  import opened Diagram

  /** `nodes.findIndex(n => n.id === id)`: the first position holding `id`, if any. */
  function FindNode(nodes: seq<Node>, id: string): (r: Option<nat>)
    ensures r.Some? ==> r.value < |nodes| && nodes[r.value].id == id
    ensures r.Some? ==> forall j :: 0 <= j < r.value ==> nodes[j].id != id
    ensures r.None? ==> forall j :: 0 <= j < |nodes| ==> nodes[j].id != id
  {
    if nodes == [] then None
    else if nodes[0].id == id then Some(0)
    else match FindNode(nodes[1..], id)
      case None => None
      case Some(k) => Some(k + 1)
  }

  /**
   * The node the panel shows: the first node whose id is the selected id. With nothing
   * selected, or a selected id no node has, the panel shows its placeholder and offers no edit.
   */
  function SelectedNode(nodes: seq<Node>, selected: Option<string>): (r: Option<Node>)
    ensures r.Some? <==> selected.Some? && exists j :: 0 <= j < |nodes| && nodes[j].id == selected.value
    ensures r.Some? ==> r.value.id == selected.value
    ensures r.Some? ==> exists j :: 0 <= j < |nodes| && nodes[j] == r.value &&
                                    forall k :: 0 <= k < j ==> nodes[k].id != selected.value
  {
    match selected
    case None => None
    case Some(id) =>
      match FindNode(nodes, id)
      case None => None
      case Some(j) => Some(nodes[j])
  }

  /** The two text inputs that go through `handleInputChange`. */
  datatype TextField = LabelField | OtmTypeField

  function FieldKey(field: TextField): string {
    match field
    case LabelField => "label"
    case OtmTypeField => "otmType"
  }

  /** `handleInputChange(field, value)` sends `{ [field]: value }`: one key, holding the typed text. */
  function TextEdit(field: TextField, value: string): (r: NodeData)
    ensures Keys(r) == {FieldKey(field)}
    ensures field == LabelField ==> r.labelText == Some(value)
    ensures field == OtmTypeField ==> r.otmType == Some(value)
  {
    match field
    case LabelField => NO_DATA.(labelText := Some(value))
    case OtmTypeField => NO_DATA.(otmType := Some(value))
  }

  /** What one piece contributes: its trim, or nothing when the trim is empty. */
  function Kept(p: string): (r: seq<string>)
    ensures |r| <= 1
  {
    if Trim(p) != "" then [Trim(p)] else []
  }

  /** `.map(t => t.trim()).filter(Boolean)`: trimmed pieces, empty ones dropped, order kept. */
  function CleanPieces(pieces: seq<string>): (r: seq<string>)
    ensures |r| <= |pieces|
  {
    if pieces == [] then [] else Kept(pieces[0]) + CleanPieces(pieces[1..])
  }

  /** A piece in front contributes its own part in front. */
  lemma CleanCons(p: string, rest: seq<string>)
    ensures CleanPieces([p] + rest) == Kept(p) + CleanPieces(rest)
  {
    assert ([p] + rest)[0] == p && ([p] + rest)[1..] == rest;
  }

  lemma ConcatAssoc(a: seq<string>, b: seq<string>, c: seq<string>)
    ensures a + (b + c) == (a + b) + c
  {
  }

  /** Cleaning keeps the order: the pieces of a concatenation clean to the concatenation of the cleaned pieces. */
  lemma {:induction false} CleanPiecesConcat(xs: seq<string>, ys: seq<string>)
    ensures CleanPieces(xs + ys) == CleanPieces(xs) + CleanPieces(ys)
  {
    if xs == [] {
      assert xs + ys == ys;
    } else {
      var p, tail := xs[0], xs[1..];
      assert xs + ys == [p] + (tail + ys);
      assert xs == [p] + tail;
      CleanPiecesConcat(tail, ys);
      CleanCons(p, tail + ys);
      CleanCons(p, tail);
      ConcatAssoc(Kept(p), CleanPieces(tail), CleanPieces(ys));
    }
  }

  /** One piece cleans to its trim, or to nothing when the trim is empty. */
  lemma CleanPiecesOne(p: string)
    ensures CleanPieces([p]) == if Trim(p) != "" then [Trim(p)] else []
  {
    CleanCons(p, []);
    assert [p] + [] == [p];
  }

  /** Each piece left by the cleaning is the trim of some input piece: the one at `j`. */
  lemma {:induction false} CleanPiecesFrom(pieces: seq<string>, k: nat) returns (j: nat)
    requires k < |CleanPieces(pieces)|
    ensures j < |pieces| && CleanPieces(pieces)[k] == Trim(pieces[j])
  {
    assert pieces != [];
    var kept, rest := Kept(pieces[0]), CleanPieces(pieces[1..]);
    assert CleanPieces(pieces) == kept + rest;
    IndexConcat(kept, rest, k);
    if k < |kept| {
      assert kept == [Trim(pieces[0])];
      j := 0;
    } else {
      var i := CleanPiecesFrom(pieces[1..], k - |kept|);
      j := i + 1;
      assert pieces[1..][i] == pieces[j];
    }
  }

  lemma IndexConcat(a: seq<string>, b: seq<string>, k: nat)
    requires k < |a| + |b|
    ensures (a + b)[k] == if k < |a| then a[k] else b[k - |a|]
  {
  }

  /** Each input piece whose trim is not empty is left, as its trim. */
  lemma CleanPiecesKeeps(pieces: seq<string>, j: nat)
    requires j < |pieces| && Trim(pieces[j]) != ""
    ensures Trim(pieces[j]) in CleanPieces(pieces)
  {
    var p := pieces[j];
    var after := pieces[j + 1..];
    AroundIndex(pieces, j);
    CleanPiecesConcat(pieces[..j], [p] + after);
    assert ([p] + after)[1..] == after;
    assert CleanPieces([p] + after) == [Trim(p)] + CleanPieces(after);
    assert CleanPieces(pieces)[|CleanPieces(pieces[..j])|] == Trim(p);
  }

  lemma AroundIndex(s: seq<string>, j: nat)
    requires j < |s|
    ensures s == s[..j] + ([s[j]] + s[j + 1..])
  {
  }

  /** Every piece of `r` is the trim of a piece of `pieces`. */
  predicate TrimsOf(r: seq<string>, pieces: seq<string>) {
    forall k :: 0 <= k < |r| ==> exists j :: 0 <= j < |pieces| && r[k] == Trim(pieces[j])
  }

  /** Every piece of `pieces` whose trim is not empty has its trim in `r`. */
  predicate KeepsTrims(r: seq<string>, pieces: seq<string>) {
    forall j :: 0 <= j < |pieces| && Trim(pieces[j]) != "" ==> Trim(pieces[j]) in r
  }

  /**
   * `.map(t => t.trim()).filter(Boolean)` in both directions: every piece left is the trim
   * of an input piece, and every input piece whose trim is not empty is left as its trim.
   */
  lemma CleanPiecesExact(pieces: seq<string>)
    ensures TrimsOf(CleanPieces(pieces), pieces)
    ensures KeepsTrims(CleanPieces(pieces), pieces)
  {
    var r := CleanPieces(pieces);
    forall k | 0 <= k < |r|
      ensures exists j :: 0 <= j < |pieces| && r[k] == Trim(pieces[j])
    {
      var j := CleanPiecesFrom(pieces, k);
    }
    forall j | 0 <= j < |pieces| && Trim(pieces[j]) != ""
      ensures Trim(pieces[j]) in r
    {
      CleanPiecesKeeps(pieces, j);
    }
  }

  /** Every piece is non-empty and has no white space at either end. */
  predicate Tidy(ps: seq<string>) {
    forall k :: 0 <= k < |ps| ==> ps[k] != "" && IsTrimmed(ps[k])
  }

  /** No piece holds a comma. */
  predicate CommaFree(ps: seq<string>) {
    forall k :: 0 <= k < |ps| ==> ',' !in ps[k]
  }

  lemma KeptTidy(p: string, rest: seq<string>)
    requires Tidy(rest)
    ensures Tidy(Kept(p) + rest)
  {
    if Trim(p) != "" {
      TidyCons(Trim(p), rest);
    }
  }

  lemma TidyCons(t: string, rest: seq<string>)
    requires t != "" && IsTrimmed(t) && Tidy(rest)
    ensures Tidy([t] + rest)
  {
    assert forall k :: 1 <= k < |rest| + 1 ==> ([t] + rest)[k] == rest[k - 1];
  }

  lemma CommaFreeTail(ps: seq<string>)
    requires ps != [] && CommaFree(ps)
    ensures ',' !in ps[0] && CommaFree(ps[1..])
  {
    forall j | 0 <= j < |ps[1..]|
      ensures ',' !in ps[1..][j]
    {
      assert ps[1..][j] == ps[j + 1];
    }
  }

  lemma KeptCommaFree(p: string, rest: seq<string>)
    requires ',' !in p && CommaFree(rest)
    ensures CommaFree(Kept(p) + rest)
  {
    TrimAddsNothing(p, ',');
    if Trim(p) != "" {
      CommaFreeCons(Trim(p), rest);
    }
  }

  lemma CommaFreeCons(t: string, rest: seq<string>)
    requires ',' !in t && CommaFree(rest)
    ensures CommaFree([t] + rest)
  {
    assert forall k :: 1 <= k < |rest| + 1 ==> ([t] + rest)[k] == rest[k - 1];
  }

  /** What survives the cleaning is non-empty and trimmed, and it has no comma unless a piece had one. */
  lemma {:induction false} CleanPiecesTidy(pieces: seq<string>)
    ensures Tidy(CleanPieces(pieces))
    ensures CommaFree(pieces) ==> CommaFree(CleanPieces(pieces))
  {
    if pieces != [] {
      var p, tail := pieces[0], pieces[1..];
      CleanPiecesTidy(tail);
      KeptTidy(p, CleanPieces(tail));
      if CommaFree(pieces) {
        CommaFreeTail(pieces);
        KeptCommaFree(p, CleanPieces(tail));
      }
    }
  }

  /**
   * The tags input: split on ',', trim each piece, drop the empty ones. Every tag is the
   * trim of a comma-separated piece of the text, and every piece with something besides
   * white space gives its trim as a tag.
   */
  function ParseTags(text: string): (r: seq<string>)
    ensures forall k :: 0 <= k < |r| ==> r[k] != "" && IsTrimmed(r[k]) && ',' !in r[k]
    ensures TrimsOf(r, Split(text, ',')) && KeepsTrims(r, Split(text, ','))
  {
    CleanPiecesTidy(Split(text, ','));
    CleanPiecesExact(Split(text, ','));
    CleanPieces(Split(text, ','))
  }

  /** Typing a comma splits the tags: the tags of `a,b` are the tags of `a` followed by those of `b`. */
  lemma ParseTagsConcat(a: string, b: string)
    ensures ParseTags(a + [','] + b) == ParseTags(a) + ParseTags(b)
  {
    SplitConcat(a, b, ',');
    CleanPiecesConcat(Split(a, ','), Split(b, ','));
  }

  /** The text the tags input shows: the tags joined with ", ", or "" when there are none. */
  function TagsText(tags: Option<seq<string>>): string {
    match tags
    case None => ""
    case Some(ts) => Join(ts, ", ")
  }

  /** Every tag but the first with the blank `join(', ')` puts before it. */
  function Blanked(tags: seq<string>): (r: seq<string>)
    ensures |r| == |tags|
  {
    if tags == [] then [] else [[' '] + tags[0]] + Blanked(tags[1..])
  }

  lemma {:induction false} JoinBlankedHead(b: string, rest: seq<string>, d: string)
    ensures Join([[' '] + b] + rest, d) == [' '] + Join([b] + rest, d)
  {
    if rest != [] {
      assert ([[' '] + b] + rest)[1..] == rest;
      assert ([b] + rest)[1..] == rest;
    }
  }

  /** Joining with ", " is joining with "," after a blank is put before every tag but the first. */
  lemma {:induction false} JoinAsBlanked(tags: seq<string>)
    requires |tags| >= 1
    ensures Join(tags, ", ") == Join([tags[0]] + Blanked(tags[1..]), ",")
  {
    if |tags| > 1 {
      var rest := tags[1..];
      JoinAsBlanked(rest);
      assert rest == [rest[0]] + rest[1..];
      assert Blanked(rest) == [[' '] + rest[0]] + Blanked(rest[1..]);
      JoinBlankedHead(rest[0], Blanked(rest[1..]), ",");
      assert ([tags[0]] + Blanked(rest))[1..] == Blanked(rest);
    }
  }

  lemma {:induction false} CleanBlanked(tags: seq<string>)
    requires forall k :: 0 <= k < |tags| ==> tags[k] != "" && IsTrimmed(tags[k])
    ensures CleanPieces(Blanked(tags)) == tags
  {
    if tags != [] {
      CleanBlanked(tags[1..]);
      TrimAfterBlank(tags[0]);
      assert Blanked(tags)[1..] == Blanked(tags[1..]);
      HeadTail(tags);
    }
  }

  lemma HeadTail(s: seq<string>)
    requires s != []
    ensures [s[0]] + s[1..] == s
  {
  }

  /**
   * Showing a tag list and reading the shown text back gives the same list, whenever every
   * tag is non-empty, trimmed and free of commas (exactly the tags `ParseTags` produces).
   */
  lemma {:induction false} TagsRoundTrip(tags: seq<string>)
    requires forall k :: 0 <= k < |tags| ==> tags[k] != "" && IsTrimmed(tags[k]) && ',' !in tags[k]
    ensures ParseTags(TagsText(Some(tags))) == tags
  {
    if tags == [] {
      NoTags();
    } else {
      var parts := [tags[0]] + Blanked(tags[1..]);
      JoinAsBlanked(tags);
      BlankedCommaFree(tags);
      SplitJoin(parts, ',');
      CleanShown(tags);
    }
  }

  /** An empty tags input gives no tags. */
  lemma NoTags()
    ensures ParseTags("") == []
  {
    assert Split("", ',') == [""];
    assert Trim("") == "";
  }

  lemma BlankedCommaFree(tags: seq<string>)
    requires |tags| >= 1
    requires forall k :: 0 <= k < |tags| ==> ',' !in tags[k]
    ensures forall k :: 0 <= k < |tags| ==> ',' !in ([tags[0]] + Blanked(tags[1..]))[k]
  {
    var parts := [tags[0]] + Blanked(tags[1..]);
    forall k | 0 <= k < |parts| ensures ',' !in parts[k] {
      if k > 0 {
        BlankedAt(tags[1..], k - 1);
      }
    }
  }

  /** Cleaning the pieces of the shown text gives the tags back. */
  lemma CleanShown(tags: seq<string>)
    requires |tags| >= 1
    requires forall k :: 0 <= k < |tags| ==> tags[k] != "" && IsTrimmed(tags[k])
    ensures CleanPieces([tags[0]] + Blanked(tags[1..])) == tags
  {
    TrimOfTrimmed(tags[0]);
    CleanBlanked(tags[1..]);
    CleanCons(tags[0], Blanked(tags[1..]));
    HeadTail(tags);
  }

  lemma {:induction false} BlankedAt(tags: seq<string>, k: int)
    requires 0 <= k < |tags|
    ensures Blanked(tags)[k] == [' '] + tags[k]
  {
    if k > 0 {
      BlankedAt(tags[1..], k - 1);
    }
  }

  /** `currentRisk[riskType] || 0`: a missing dimension shows as 0 (and 0 shows as 0). */
  function ShownRisk(current: Option<Risk>, d: RiskDim): int {
    match current
    case None => 0
    case Some(r) => r.Get(d).GetOr(0)
  }

  /** A range input with min 0 and max 100 holds its value within those bounds. */
  function SliderPosition(v: int): (r: int)
    ensures 0 <= r <= 100
    ensures 0 <= v <= 100 ==> r == v
  {
    if v < 0 then 0 else if v > 100 then 100 else v
  }

  /**
   * The risk object the slider handler builds, as written: `{ ...(risk || {}), [d]: v }`.
   * For a zone without a risk object the result holds only the edited dimension.
   */
  function RiskEditAsWritten(current: Option<Risk>, d: RiskDim, v: int): Risk {
    (if current.None? then Risk(None, None, None) else current.value).With(d, v)
  }

  /**
   * The risk edit corrected: the edited dimension takes the new value and the others keep
   * the values the panel shows, 0 for a zone without a risk object (the default the zone
   * node itself uses). The panel as written builds `RiskEditAsWritten` instead.
   */
  function RiskEdit(current: Option<Risk>, d: RiskDim, v: int): (r: Risk)
    ensures r.Get(d) == Some(v)
    ensures forall e :: e != d && current.Some? ==> r.Get(e) == current.value.Get(e)
    ensures forall e :: e != d && current.None? ==> r.Get(e) == Some(0)
  {
    (if current.None? then FullRisk(0, 0, 0) else current.value).With(d, v)
  }

  /** The two agree on every zone that has a risk object. */
  lemma RiskEditAgrees(current: Option<Risk>, d: RiskDim, v: int)
    requires current.Some?
    ensures RiskEdit(current, d, v) == RiskEditAsWritten(current, d, v)
  {
  }

  /** After an edit the panel shows the new value in the edited dimension and what it showed before in the others. */
  lemma RiskEditShown(current: Option<Risk>, d: RiskDim, v: int)
    ensures forall e :: ShownRisk(Some(RiskEdit(current, d, v)), e) == if e == d then v else ShownRisk(current, e)
    ensures forall e :: ShownRisk(Some(RiskEditAsWritten(current, d, v)), e) == if e == d then v else ShownRisk(current, e)
  {
  }

  /** The edit keeps a risk object complete, and makes one out of a missing one. */
  lemma RiskEditComplete(current: Option<Risk>, d: RiskDim, v: int)
    requires current.None? || current.value.Complete()
    ensures RiskEdit(current, d, v).Complete()
  {
  }

  /** The as-written edit of a zone without a risk object leaves two dimensions missing. */
  lemma RiskEditAsWrittenIncomplete(d: RiskDim, v: int)
    ensures !RiskEditAsWritten(None, d, v).Complete()
    ensures forall e :: e != d ==> RiskEditAsWritten(None, d, v).Get(e) == None
  {
  }

  /** What the user does in the panel. */
  datatype PanelEdit =
    | EditText(field: TextField, value: string)
    | EditTags(text: string)
    | EditRisk(dim: RiskDim, sliderValue: int)

  /** The values the OTM type drop-down offers. */
  const OTM_TYPE_OPTIONS: set<string> :=
    {"microservice", "database", "web-server", "message-broker", "storage", "generic-client"}

  /**
   * The name input is shown for every node; the type drop-down (which yields only its own
   * options) and the tags input for components only; the risk sliders for zones only.
   */
  predicate EditShown(node: Node, edit: PanelEdit) {
    match edit
    case EditText(LabelField, _) => true
    case EditText(OtmTypeField, v) => node.nodeType == COMPONENT_TYPE && v in OTM_TYPE_OPTIONS
    case EditTags(_) => node.nodeType == COMPONENT_TYPE
    case EditRisk(_, _) => node.nodeType == ZONE_TYPE
  }

  /**
   * What the panel offers as written: the zone branch renders a `ShieldAlert` icon that the
   * file never imports, so rendering a selected zone throws and none of its inputs appear.
   */
  predicate EditShownAsWritten(node: Node, edit: PanelEdit) {
    node.nodeType != ZONE_TYPE && EditShown(node, edit)
  }

  /** As written, a selected zone offers no edit at all, not even its name. */
  lemma ZoneEditsAsWritten(node: Node, edit: PanelEdit)
    requires node.nodeType == ZONE_TYPE
    ensures !EditShownAsWritten(node, edit)
  {
  }

  /** With the icon imported, a selected zone offers exactly its name and its three risk sliders. */
  lemma ZoneEditsShown(node: Node, edit: PanelEdit)
    requires node.nodeType == ZONE_TYPE
    ensures EditShown(node, edit) <==> edit.EditRisk? || (edit.EditText? && edit.field == LabelField)
  {
  }

  /** Nodes other than zones are offered the same edits either way. */
  lemma OtherEditsAsWritten(node: Node, edit: PanelEdit)
    requires node.nodeType != ZONE_TYPE
    ensures EditShownAsWritten(node, edit) == EditShown(node, edit)
  {
  }

  /**
   * The partial data object an edit hands to `updateNodeData`; a risk edit spreads the
   * current risk object (or an empty one) and sets the edited dimension, as written.
   */
  function EditPatch(node: Node, edit: PanelEdit): (r: NodeData)
    ensures |Keys(r)| == 1
  {
    match edit
    case EditText(field, value) => TextEdit(field, value)
    case EditTags(text) => NO_DATA.(tags := Some(ParseTags(text)))
    case EditRisk(d, x) => NO_DATA.(risk := Some(RiskEditAsWritten(node.data.risk, d, SliderPosition(x))))
  }

  /**
   * An edit in the panel: applied to the selected node when the panel shows that input,
   * otherwise nothing happens. The inputs are those of the panel with the zone icon
   * imported (`EditShown`); the patches are those the handlers build as written.
   */
  method ApplyEdit(store: DiagramStore, edit: PanelEdit)
    modifies store
    ensures var sel := SelectedNode(old(store.nodes), old(store.selectedNodeId));
      store.nodes == if sel.Some? && EditShown(sel.value, edit)
                     then UpdatedNodes(old(store.nodes), sel.value.id, EditPatch(sel.value, edit))
                     else old(store.nodes)
    ensures store.edges == old(store.edges) && store.selectedNodeId == old(store.selectedNodeId)
  {
    var sel := SelectedNode(store.nodes, store.selectedNodeId);
    if sel.Some? && EditShown(sel.value, edit) {
      store.UpdateNodeData(sel.value.id, EditPatch(sel.value, edit));
    }
  }

  /** The close button clears the selection. */
  method Close(store: DiagramStore)
    modifies store
    ensures store.selectedNodeId == None
    ensures store.nodes == old(store.nodes) && store.edges == old(store.edges)
  {
    store.SetSelectedNode(None);
  }
}
