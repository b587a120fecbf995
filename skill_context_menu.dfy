// The detail panel of a selected node (src/components/skills/SkillContextMenu.tsx): when it
// renders, the connected-node list, which sections and empty states show, the
// header colours and the type badge, and the tab state.

module SkillContextMenu {
  import opened Lists
  import opened Text
  import opened SkillTypes
  import opened SkillData
  import opened SkillBuilder

  /** The panel renders only when visible and given a node. */
  predicate PanelRendered(visible: bool, node: Option<GraphNode>) {
    visible && node.Some?
  }

  predicate TouchesNode(r: Relationship, id: string) {
    r.source == id || r.target == id
  }

  /** The other end of a relationship that touches `id`. */
  function Opposite(r: Relationship, id: string): string {
    if r.source == id then r.target else r.source
  }

  /** The relationships that touch `id`, in order. */
  function Touching(rels: seq<Relationship>, id: string): (r: seq<Relationship>)
    ensures forall x :: x in r <==> x in rels && TouchesNode(x, id)
    ensures SubsequenceOf(r, rels)
  {
    if |rels| == 0 then []
    else
      var rest := Touching(rels[1..], id);
      assert rels == [rels[0]] + rels[1..];
      if TouchesNode(rels[0], id) then
        assert ([rels[0]] + rest)[1..] == rest;
        [rels[0]] + rest
      else rest
  }

  /** Every copy of a touching relationship is kept, and no copy of another one. */
  lemma {:induction false} TouchingCopies(rels: seq<Relationship>, id: string)
    ensures forall x :: multiset(Touching(rels, id))[x] == if TouchesNode(x, id) then multiset(rels)[x] else 0
  {
    if |rels| > 0 {
      TouchingCopies(rels[1..], id);
      assert rels == [rels[0]] + rels[1..];
      assert multiset(rels) == multiset{rels[0]} + multiset(rels[1..]);
    }
  }

  /** `getConnectedNodes`: the opposite end of every touching relationship, in order, repeats kept. */
  function ConnectedNodes(rels: seq<Relationship>, id: string): (r: seq<string>)
    ensures |r| == |Touching(rels, id)|
    ensures forall i :: 0 <= i < |r| ==> r[i] == Opposite(Touching(rels, id)[i], id)
  {
    var ts := Touching(rels, id);
    seq(|ts|, i requires 0 <= i < |ts| => Opposite(ts[i], id))
  }

  /** The connected list splits along the relationship list, so it keeps relationship order. */
  lemma {:induction false} ConnectedNodesAppend(a: seq<Relationship>, b: seq<Relationship>, id: string)
    ensures ConnectedNodes(a + b, id) == ConnectedNodes(a, id) + ConnectedNodes(b, id)
  {
    TouchingAppend(a, b, id);
  }

  lemma {:induction false} TouchingAppend(a: seq<Relationship>, b: seq<Relationship>, id: string)
    ensures Touching(a + b, id) == Touching(a, id) + Touching(b, id)
  {
    if |a| > 0 {
      assert (a + b)[1..] == a[1..] + b;
      TouchingAppend(a[1..], b, id);
    } else {
      assert a + b == b;
    }
  }

  /** A node is connected to `x` exactly when some relationship joins the two. */
  lemma ConnectedMembership(rels: seq<Relationship>, id: string, x: string)
    ensures x in ConnectedNodes(rels, id) <==>
      exists r :: r in rels && TouchesNode(r, id) && Opposite(r, id) == x
  {
    var c, ts := ConnectedNodes(rels, id), Touching(rels, id);
    if x in c {
      var i :| 0 <= i < |c| && c[i] == x;
      assert ts[i] in ts;
    }
    if exists r :: r in rels && TouchesNode(r, id) && Opposite(r, id) == x {
      var r :| r in rels && TouchesNode(r, id) && Opposite(r, id) == x;
      var i :| 0 <= i < |ts| && ts[i] == r;
      assert c[i] == x;
    }
  }

  /** A relationship listed in both directions puts the other end in the list twice. */
  lemma MirroredPairListedTwice(a: string, b: string)
    requires a != b
    ensures ConnectedNodes([Relationship(a, b), Relationship(b, a)], a) == [b, b]
  {
    var rels := [Relationship(a, b), Relationship(b, a)];
    assert rels[1..][1..] == [];
    assert Touching(rels[1..], a) == [Relationship(b, a)];
    assert Touching(rels, a) == rels;
  }

  /** A related-id list shown as a section: present and non-empty. */
  predicate ShowsList(ids: Option<seq<string>>) {
    ids.Some? && |ids.value| > 0
  }

  /** The "No connections available" message. */
  predicate ShowsNoConnections(node: GraphNode, connected: seq<string>) {
    (node.relatedProjects.None? || |node.relatedProjects.value| == 0)
    && (node.relatedExperience.None? || |node.relatedExperience.value| == 0)
    && (node.relatedPosts.None? || |node.relatedPosts.value| == 0)
    && |connected| == 0
  }

  /** The empty state shows exactly when none of the four sections does. */
  lemma NoConnectionsIffNoSection(node: GraphNode, connected: seq<string>)
    ensures ShowsNoConnections(node, connected) <==>
      !ShowsList(node.relatedProjects) && !ShowsList(node.relatedExperience)
      && !ShowsList(node.relatedPosts) && !(|connected| > 0)
  {
  }

  /** No relationship touches an id that is neither end of any of them. */
  lemma NoTouchingWhenAbsent(rels: seq<Relationship>, id: string)
    requires forall k :: 0 <= k < |rels| ==> rels[k].source != id && rels[k].target != id
    ensures Touching(rels, id) == [] && ConnectedNodes(rels, id) == []
  {
    assert forall x :: x in Touching(rels, id) ==> x in rels && TouchesNode(x, id);
  }

  /** The site's four hub panels show the empty state: hubs carry no related lists and no relationship names a hub. */
  lemma SiteHubPanelsShowNoConnections(g: Group)
    ensures ShowsNoConnections(HubNode(g), ConnectedNodes(Relationships, HubId(g)))
  {
    var id := HubId(g);
    assert id[0] == 'c';
    var rels := Relationships;
    RelationshipEndpointsAreSkills();
    SkillNamesAvoidHubPrefix();
    forall k | 0 <= k < |rels| ensures rels[k].source != id && rels[k].target != id {
      assert rels[k].source in Skills && rels[k].target in Skills;
    }
    NoTouchingWhenAbsent(rels, id);
  }

  /** What the Details tab shows. */
  datatype DetailsView = DescriptionText(text: string) | NoDetails

  /** `node.description ? … : …`: a missing or empty description gives the "No details" message. */
  function DetailsTab(node: GraphNode): (v: DetailsView)
    ensures v.DescriptionText? <==> node.description.Some? && |node.description.value| > 0
    ensures v.DescriptionText? ==> v.text == node.description.value
  {
    match node.description
    case Some(d) => if |d| > 0 then DescriptionText(d) else NoDetails
    case None => NoDetails
  }

  /** `accentColor`: seven types have their own colour, all others fall back to blue. */
  function AccentColor(t: NodeType): string {
    match t
    case Management => "blue"
    case Proficiency => "green"
    case OpsDesign => "amber"
    case DevTech => "purple"
    case Category => "gray"
    case AiTech => "pink"
    case Fabrication => "orange"
    case _ => "blue"
  }

  /** `getNodeTypeColor`: the header gradient class. */
  function HeaderGradient(t: NodeType): string {
    match t
    case Management => "from-blue-600 to-blue-800"
    case Proficiency => "from-green-600 to-green-800"
    case OpsDesign => "from-amber-600 to-amber-800"
    case DevTech => "from-purple-600 to-purple-800"
    case Category => "from-gray-600 to-gray-800"
    case AiTech => "from-pink-600 to-pink-800"
    case Fabrication => "from-orange-600 to-orange-800"
    case _ => "from-blue-600 to-blue-800"
  }

  /** The gradient class from shade 600 to shade 800 of a colour. */
  function ShadeRange(color: string): string {
    "from-" + color + "-600 to-" + color + "-800"
  }

  /** The two switches agree: the gradient runs from shade 600 to shade 800 of the accent colour. */
  lemma GradientMatchesAccent(t: NodeType)
    ensures HeaderGradient(t) == ShadeRange(AccentColor(t))
  {
    ShadeRanges0(); ShadeRanges1(); ShadeRanges2(); ShadeRanges3();
  }

  /** The seven gradient classes the colour switch writes out, in pairs to keep each proof small. */
  lemma ShadeRanges0()
    ensures ShadeRange("blue") == "from-blue-600 to-blue-800"
    ensures ShadeRange("green") == "from-green-600 to-green-800"
  {
  }

  lemma ShadeRanges1()
    ensures ShadeRange("amber") == "from-amber-600 to-amber-800"
    ensures ShadeRange("purple") == "from-purple-600 to-purple-800"
  {
  }

  lemma ShadeRanges2()
    ensures ShadeRange("gray") == "from-gray-600 to-gray-800"
    ensures ShadeRange("pink") == "from-pink-600 to-pink-800"
  {
  }

  lemma ShadeRanges3()
    ensures ShadeRange("orange") == "from-orange-600 to-orange-800"
  {
  }

  /** The hub variants, projects and experiences get the default blue. */
  lemma BuilderTypesDefaultToBlue(t: NodeType)
    requires IsCategoryVariant(t) || t == Project || t == Experience
    ensures AccentColor(t) == "blue" && HeaderGradient(t) == "from-blue-600 to-blue-800"
  {
  }

  lemma TagStartsLowerCase(t: NodeType)
    ensures |TypeTag(t)| > 0 && 'a' <= TypeTag(t)[0] <= 'z'
  {
    match t
    case Management =>
    case Proficiency =>
    case OpsDesign =>
    case DevTech =>
    case Category =>
    case CategoryManagement =>
    case CategoryProficiency =>
    case CategoryOpsDesign =>
    case CategoryDevTech =>
    case AiTech =>
    case Fabrication =>
    case Project =>
    case Experience =>
    case CategoryProject =>
    case CategoryExperience =>
  }

  /** The type badge: the type tag with its first character upper-cased. */
  function BadgeText(t: NodeType): (b: string)
    ensures |b| == |TypeTag(t)| && b[1..] == TypeTag(t)[1..]
    ensures b[0] == UpperChar(TypeTag(t)[0]) && 'A' <= b[0] <= 'Z'
  {
    TagStartsLowerCase(t);
    CapitalizeFirst(TypeTag(t))
  }

  /** The label of a related project or blog-post link: the slug in title case, as `formatProjectName` gives it. */
  function LinkLabel(slug: string): (s: string)
    ensures |s| == |slug| && '-' !in s
  {
    FormatProjectNameCharwise(slug);
    FormatProjectName(slug)
  }

  datatype Tab = ConnectionsTab | DetailsTabKind

  /** The `activeTab` state of the panel. */
  class PanelTabs {
    var activeTab: Tab

    constructor()
      ensures activeTab == ConnectionsTab
    {
      activeTab := ConnectionsTab;
    }

    /** A tab button's click. */
    method Select(tab: Tab)
      modifies this
      ensures activeTab == tab
    {
      activeTab := tab;
    }
  }
}
