// The drawing and layout decisions of the graph canvas (src/components/skills/SkillGraph.tsx):
// node radius, outline and label rules, link highlighting and particles, and the
// force parameters. The canvas calls and the simulation itself are not modelled.

module SkillRender {
  import opened Lists
  import opened SkillTypes
  import opened SkillData
  import opened SkillBuilder

  /**
   * A link endpoint as the canvas callbacks see it: the graph library replaces the
   * id string by the node object once the simulation has resolved it.
   */
  datatype Endpoint = Resolved(node: GraphNode) | Unresolved

  /** `selectedNode?.id === id` (and the same for the hovered node). */
  predicate Matches(chosen: Option<GraphNode>, id: string) {
    chosen.Some? && chosen.value.id == id
  }

  /** `val * (isSelected ? 1.5 : isHovered ? 1.2 : 1)`. */
  function DrawnRadius(val: int, isSelected: bool, isHovered: bool): (r: real)
    ensures isSelected ==> r == val as real * 1.5
    ensures !isSelected && isHovered ==> r == val as real * 1.2
    ensures !isSelected && !isHovered ==> r == val as real
  {
    val as real * (if isSelected then 1.5 else if isHovered then 1.2 else 1.0)
  }

  /** For a positive size, selection draws larger than hover, and hover larger than neither. */
  lemma RadiusOrder(val: int, hovered: bool)
    requires val > 0
    ensures DrawnRadius(val, true, hovered) > DrawnRadius(val, false, true) > DrawnRadius(val, false, false)
  {
  }

  /** A white outline is stroked exactly for a selected or hovered node. */
  predicate HasOutline(isSelected: bool, isHovered: bool) {
    isSelected || isHovered
  }

  /** `showAllLabels || isSelected || isHovered || type === 'category'`. */
  predicate ShowsLabel(showAllLabels: bool, isSelected: bool, isHovered: bool, t: NodeType) {
    showAllLabels || isSelected || isHovered || t == Category
  }

  /** The id an endpoint shows to `paintLink`: an unresolved one has id `null`. */
  function EndpointId(e: Endpoint): Option<string> {
    if e.Resolved? then Some(e.node.id) else None
  }

  /** Whether `chosen` is one of the link's resolved endpoints. */
  predicate Touches(chosen: Option<GraphNode>, source: Endpoint, target: Endpoint) {
    chosen.Some? && (EndpointId(source) == Some(chosen.value.id) || EndpointId(target) == Some(chosen.value.id))
  }

  /** `paintLink`'s test: the selected or the hovered node is an endpoint. */
  predicate LinkHighlighted(selected: Option<GraphNode>, hovered: Option<GraphNode>, source: Endpoint, target: Endpoint) {
    Touches(selected, source, target) || Touches(hovered, source, target)
  }

  /** A link whose endpoints are both unresolved is never highlighted. */
  lemma UnresolvedNeverHighlighted(selected: Option<GraphNode>, hovered: Option<GraphNode>)
    ensures !LinkHighlighted(selected, hovered, Unresolved, Unresolved)
  {
  }

  /** `linkDirectionalParticleWidth`: 2 on links touching the selected node, 0 otherwise. */
  function ParticleWidth(selected: Option<GraphNode>, source: Endpoint, target: Endpoint): (w: int)
    ensures w == 2 || w == 0
    ensures w == 2 <==> Touches(selected, source, target)
  {
    if selected.Some? && (EndpointId(source) == Some(selected.value.id) || EndpointId(target) == Some(selected.value.id))
    then 2 else 0
  }

  /** Particles run exactly on the links that are highlighted for the selection alone. */
  lemma ParticlesFollowSelection(selected: Option<GraphNode>, source: Endpoint, target: Endpoint)
    ensures ParticleWidth(selected, source, target) == 2 <==> LinkHighlighted(selected, None, source, target)
    ensures selected.None? ==> ParticleWidth(selected, source, target) == 0
  {
  }

  /** An endpoint counts as a generic category node; an unresolved one has type ''. */
  predicate IsGenericCategory(e: Endpoint) {
    e.Resolved? && e.node.nodeType == Category
  }

  /** The link distance: 120 next to a generic category node, 80 otherwise. */
  function LinkDistance(source: Endpoint, target: Endpoint): (d: int)
    ensures d == 120 || d == 80
    ensures d == 120 <==> IsGenericCategory(source) || IsGenericCategory(target)
  {
    if IsGenericCategory(source) || IsGenericCategory(target) then 120 else 80
  }

  // The two force parameters below are given as formulas; their contracts only record them.

  /** `node.val * 2 + 30`. */
  function CollisionRadius(val: int): (r: int)
    ensures r == 2 * val + 30
    ensures val >= 0 ==> r >= 30
  {
    val * 2 + 30
  }

  /** The charge force pushes nodes apart with the spacing as strength. */
  function ChargeStrength(nodeSpacing: int): (s: int)
    ensures s + nodeSpacing == 0
  {
    -nodeSpacing
  }

  const CenterStrength: real := 0.05

  /** The canvas is drawn only for a non-empty node list. */
  predicate RendersGraph(g: GraphData) {
    |g.nodes| > 0
  }

  /** Both builds start with the four hubs, so the canvas is always drawn. */
  lemma BuiltGraphsRender(t: SkillTables)
    ensures RendersGraph(BaseGraph(t)) && RendersGraph(ExtendedGraph(t))
    ensures |ExtendedGraph(t).nodes| == |BaseGraph(t).nodes| + 2 + |t.projects| + |t.experiences|
  {
    BaseGraphNodes(t);
  }

  /** The node types the builder uses: the base types and project/experience, none of them the generic category. */
  lemma BaseGraphHasNoGenericCategory(t: SkillTables)
    ensures forall n :: n in BaseGraph(t).nodes ==> n.nodeType != Category
  {
    BaseGraphNodes(t);
    var b := BaseGraph(t).nodes;
    forall n | n in b ensures n.nodeType != Category {
      var i :| 0 <= i < |b| && b[i] == n;
      if i >= 4 {
        assert IsMemberNodeFor(b[4 + (i - 4)], Members(t)[i - 4]);
        match Members(t)[i - 4].group
        case ManagementGroup =>
        case ProficiencyGroup =>
        case OpsDesignGroup =>
        case DevTechGroup =>
      }
    }
  }

  lemma ExtendedNodesHaveNoGenericCategory(t: SkillTables)
    ensures forall n :: n in ExtendedNodes(t) ==> n.nodeType != Category
  {
    BaseGraphHasNoGenericCategory(t);
    var ns := ExtendedNodes(t);
    var p, e := ProjectNodes(t), ExperienceNodes(t);
    var b := BaseGraph(t).nodes;
    assert ns == b + [ProjectsHub(), ExperiencesHub()] + p + e;
    forall n | n in ns ensures n.nodeType != Category {
      if n in p {
        var i :| 0 <= i < |p| && p[i] == n;
      } else if n in e {
        var i :| 0 <= i < |e| && e[i] == n;
      } else if n !in b {
        assert n == ProjectsHub() || n == ExperiencesHub();
      }
    }
  }

  lemma ExtendedGraphHasNoGenericCategory(t: SkillTables)
    ensures forall n :: n in ExtendedGraph(t).nodes ==> n.nodeType != Category
  {
    ExtendedNodesHaveNoGenericCategory(t);
    var ns := ExtendedNodes(t);
    var r := ExtendedGraph(t).nodes;
    forall n | n in r ensures n.nodeType != Category {
      var i :| 0 <= i < |r| && r[i] == n;
      assert r[i] == Resized(t, ns[i]) && ns[i] in ns;
    }
  }

  /** An endpoint that is unresolved or a node of the given graph. */
  predicate EndpointOf(g: GraphData, e: Endpoint) {
    e.Unresolved? || e.node in g.nodes
  }

  /**
   * The 'category' tests never fire on a built graph, whose hubs carry the
   * category-variant types: every link gets distance 80, and the label rule is
   * just "all labels, selected or hovered".
   */
  lemma CategoryRulesNeverFire(t: SkillTables, extended: bool, source: Endpoint, target: Endpoint, n: GraphNode,
                               showAllLabels: bool, isSelected: bool, isHovered: bool)
    requires var g := if extended then ExtendedGraph(t) else BaseGraph(t);
      EndpointOf(g, source) && EndpointOf(g, target) && n in g.nodes
    ensures LinkDistance(source, target) == 80
    ensures ShowsLabel(showAllLabels, isSelected, isHovered, n.nodeType) <==> showAllLabels || isSelected || isHovered
  {
    BaseGraphHasNoGenericCategory(t);
    ExtendedGraphHasNoGenericCategory(t);
  }
}
