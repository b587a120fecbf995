// The interaction state of the skill graph section (src/components/skills/index.tsx):
// selection and the detail panel, hover, zoom, the projects/experiences toggle,
// labels, spacing and the container height. The React state hooks are the fields
// of a class; each handler is a method that changes them.

module SkillView {
  import opened Lists
  import opened SkillTypes
  import opened SkillData
  import opened SkillBuilder

  const MinZoom: real := 0.5
  const MaxZoom: real := 5.0
  const ZoomFactor: real := 1.2

  /** `Math.min(zoomLevel * 1.2, 5)`. */
  function ZoomedIn(z: real): (r: real)
    ensures r <= MaxZoom
    ensures z * ZoomFactor <= MaxZoom ==> r == z * ZoomFactor
    ensures z * ZoomFactor > MaxZoom ==> r == MaxZoom
  {
    if z * ZoomFactor <= MaxZoom then z * ZoomFactor else MaxZoom
  }

  /** `Math.max(zoomLevel / 1.2, 0.5)`. */
  function ZoomedOut(z: real): (r: real)
    ensures r >= MinZoom
    ensures z / ZoomFactor >= MinZoom ==> r == z / ZoomFactor
    ensures z / ZoomFactor < MinZoom ==> r == MinZoom
  {
    if z / ZoomFactor >= MinZoom then z / ZoomFactor else MinZoom
  }

  /** Zooming in or out keeps a zoom level inside [0.5, 5]; zooming in never shrinks it, zooming out never grows it. */
  lemma ZoomStaysInRange(z: real)
    requires MinZoom <= z <= MaxZoom
    ensures MinZoom <= ZoomedIn(z) <= MaxZoom && z <= ZoomedIn(z)
    ensures MinZoom <= ZoomedOut(z) <= MaxZoom && ZoomedOut(z) <= z
  {
  }

  /** Away from the limits, one step out undoes one step in, and the other way round. */
  lemma ZoomStepsUndo(z: real)
    requires MinZoom <= z
    ensures z * ZoomFactor <= MaxZoom ==> ZoomedOut(ZoomedIn(z)) == z
    ensures z <= MaxZoom && z / ZoomFactor >= MinZoom ==> ZoomedIn(ZoomedOut(z)) == z
  {
  }

  /** `Math.max(600, width * 0.6)`: the container height for a width. */
  function GraphHeight(width: real): (h: real)
    ensures h >= 600.0 && h >= width * 0.6
    ensures h == 600.0 || h == width * 0.6
  {
    if width * 0.6 <= 600.0 then 600.0 else width * 0.6
  }

  /** The height grows with the width and is proportional to it beyond width 1000. */
  lemma GraphHeightShape(w1: real, w2: real)
    requires w1 <= w2
    ensures GraphHeight(w1) <= GraphHeight(w2)
    ensures w1 >= 1000.0 ==> GraphHeight(w1) == w1 * 0.6
    ensures w1 <= 1000.0 ==> GraphHeight(w1) == 600.0
  {
  }

  /**
   * The selection after clicking `node`: clicking the selected node (same id)
   * clears the selection, clicking any other node selects it.
   */
  function ClickSelection(selected: Option<GraphNode>, node: GraphNode): (r: Option<GraphNode>)
    ensures r.None? <==> selected.Some? && selected.value.id == node.id
    ensures r.Some? ==> r.value == node
  {
    if selected.Some? && selected.value.id == node.id then None else Some(node)
  }

  /** The detail panel that goes with a selection: shown with the node, or hidden and empty. */
  function PanelFor(selected: Option<GraphNode>): (m: ContextMenuState)
    ensures m.node == selected && m.visible == selected.Some?
  {
    ContextMenuState(selected.Some?, selected)
  }

  /** A second click on the same node undoes the first; a click on another node moves the selection. */
  lemma ClickToggles(selected: Option<GraphNode>, a: GraphNode, b: GraphNode)
    ensures ClickSelection(ClickSelection(None, a), a) == None
    ensures a.id != b.id ==> ClickSelection(ClickSelection(selected, a), b) == Some(b)
    ensures ClickSelection(selected, a).Some? ==> ClickSelection(ClickSelection(selected, a), a) == None
  {
  }

  datatype Dimensions = Dimensions(width: real, height: real)

  /** The component's state hooks, after the graph-data effects have run; the first resize is `UpdateDimensions`. */
  class SkillsView {
    const tables: SkillTables
    var graphData: GraphData
    var dimensions: Dimensions
    var selectedNode: Option<GraphNode>
    var hoveredNode: Option<GraphNode>
    var showAllLabels: bool
    var showProjectsExperiences: bool
    var nodeSpacing: int
    var zoomLevel: real
    var contextMenu: ContextMenuState

    /**
     * What every handler keeps: the panel shows exactly the selected node, zoom and
     * spacing stay inside their ranges, the height is at least 600, and the graph is
     * the one the toggle asks for.
     */
    predicate Valid()
      reads this
    {
      contextMenu == PanelFor(selectedNode)
      && MinZoom <= zoomLevel <= MaxZoom
      && 50 <= nodeSpacing <= 200
      && dimensions.height >= 600.0
      && graphData == (if showProjectsExperiences then ExtendedGraph(tables) else BaseGraph(tables))
    }

    /** Initial state, then the two graph-data effects, which both store the base graph; the mount-time resize is a separate `UpdateDimensions` call. */
    constructor(t: SkillTables)
      ensures tables == t && graphData == BaseGraph(t)
      ensures dimensions == Dimensions(0.0, 600.0)
      ensures selectedNode == None && hoveredNode == None
      ensures showAllLabels && !showProjectsExperiences
      ensures nodeSpacing == 125 && zoomLevel == 1.0
      ensures contextMenu == ContextMenuState(false, None)
      ensures Valid()
    {
      tables := t;
      var g := CreateBaseGraphData(t);
      graphData := g;
      dimensions := Dimensions(0.0, 600.0);
      selectedNode := None;
      hoveredNode := None;
      showAllLabels := true;
      showProjectsExperiences := false;
      nodeSpacing := 125;
      zoomLevel := 1.0;
      contextMenu := ContextMenuState(false, None);
    }

    /** `handleNodeClick`: toggles the selection and shows or hides the panel with it. */
    method HandleNodeClick(node: GraphNode)
      requires Valid()
      modifies this
      ensures selectedNode == ClickSelection(old(selectedNode), node)
      ensures contextMenu == PanelFor(selectedNode)
      ensures graphData == old(graphData) && dimensions == old(dimensions) && hoveredNode == old(hoveredNode)
      ensures showAllLabels == old(showAllLabels) && showProjectsExperiences == old(showProjectsExperiences)
      ensures nodeSpacing == old(nodeSpacing) && zoomLevel == old(zoomLevel)
      ensures Valid()
    {
      if selectedNode.Some? && selectedNode.value.id == node.id {
        selectedNode := None;
        contextMenu := ContextMenuState(false, None);
      } else {
        selectedNode := Some(node);
        contextMenu := ContextMenuState(true, Some(node));
      }
    }

    /** `handleNodeHover`: the hovered node, or none when the pointer leaves. */
    method HandleNodeHover(node: Option<GraphNode>)
      requires Valid()
      modifies this
      ensures hoveredNode == node
      ensures graphData == old(graphData) && dimensions == old(dimensions) && selectedNode == old(selectedNode)
      ensures showAllLabels == old(showAllLabels) && showProjectsExperiences == old(showProjectsExperiences)
      ensures nodeSpacing == old(nodeSpacing) && zoomLevel == old(zoomLevel) && contextMenu == old(contextMenu)
      ensures Valid()
    {
      hoveredNode := node;
    }

    /** `handleCloseContextMenu`: hides the panel and clears the selection. */
    method HandleCloseContextMenu()
      requires Valid()
      modifies this
      ensures selectedNode == None && contextMenu == ContextMenuState(false, None)
      ensures graphData == old(graphData) && dimensions == old(dimensions) && hoveredNode == old(hoveredNode)
      ensures showAllLabels == old(showAllLabels) && showProjectsExperiences == old(showProjectsExperiences)
      ensures nodeSpacing == old(nodeSpacing) && zoomLevel == old(zoomLevel)
      ensures Valid()
    {
      contextMenu := ContextMenuState(false, None);
      selectedNode := None;
    }

    /** `handleZoomIn`. */
    method HandleZoomIn()
      requires Valid()
      modifies this
      ensures zoomLevel == ZoomedIn(old(zoomLevel))
      ensures graphData == old(graphData) && dimensions == old(dimensions)
      ensures selectedNode == old(selectedNode) && hoveredNode == old(hoveredNode) && contextMenu == old(contextMenu)
      ensures showAllLabels == old(showAllLabels) && showProjectsExperiences == old(showProjectsExperiences)
      ensures nodeSpacing == old(nodeSpacing)
      ensures Valid()
    {
      ZoomStaysInRange(zoomLevel);
      zoomLevel := ZoomedIn(zoomLevel);
    }

    /** `handleZoomOut`. */
    method HandleZoomOut()
      requires Valid()
      modifies this
      ensures zoomLevel == ZoomedOut(old(zoomLevel))
      ensures graphData == old(graphData) && dimensions == old(dimensions)
      ensures selectedNode == old(selectedNode) && hoveredNode == old(hoveredNode) && contextMenu == old(contextMenu)
      ensures showAllLabels == old(showAllLabels) && showProjectsExperiences == old(showProjectsExperiences)
      ensures nodeSpacing == old(nodeSpacing)
      ensures Valid()
    {
      ZoomStaysInRange(zoomLevel);
      zoomLevel := ZoomedOut(zoomLevel);
    }

    /** `handleResetView`: zoom back to 1 (centring and reheating are left to the graph library). */
    method HandleResetView()
      requires Valid()
      modifies this
      ensures zoomLevel == 1.0
      ensures graphData == old(graphData) && dimensions == old(dimensions)
      ensures selectedNode == old(selectedNode) && hoveredNode == old(hoveredNode) && contextMenu == old(contextMenu)
      ensures showAllLabels == old(showAllLabels) && showProjectsExperiences == old(showProjectsExperiences)
      ensures nodeSpacing == old(nodeSpacing)
      ensures Valid()
    {
      zoomLevel := 1.0;
    }

    /**
     * The projects/experiences switch and the effect it triggers: with the switch
     * off the graph is rebuilt as the base graph, with it on as the extended graph.
     */
    method SetShowProjectsExperiences(on: bool)
      requires Valid()
      modifies this
      ensures showProjectsExperiences == on
      ensures graphData == (if on then ExtendedGraph(tables) else BaseGraph(tables))
      ensures dimensions == old(dimensions) && zoomLevel == old(zoomLevel)
      ensures selectedNode == old(selectedNode) && hoveredNode == old(hoveredNode) && contextMenu == old(contextMenu)
      ensures showAllLabels == old(showAllLabels) && nodeSpacing == old(nodeSpacing)
      ensures Valid()
    {
      showProjectsExperiences := on;
      if !on {
        graphData := CreateBaseGraphData(tables);
      } else {
        graphData := CreateExtendedGraphData(tables);
      }
    }

    /** The labels switch. */
    method SetShowAllLabels(on: bool)
      requires Valid()
      modifies this
      ensures showAllLabels == on
      ensures graphData == old(graphData) && dimensions == old(dimensions) && zoomLevel == old(zoomLevel)
      ensures selectedNode == old(selectedNode) && hoveredNode == old(hoveredNode) && contextMenu == old(contextMenu)
      ensures showProjectsExperiences == old(showProjectsExperiences) && nodeSpacing == old(nodeSpacing)
      ensures Valid()
    {
      showAllLabels := on;
    }

    /** The spacing slider, whose range is 50 to 200. */
    method SetNodeSpacing(spacing: int)
      requires Valid()
      requires 50 <= spacing <= 200
      modifies this
      ensures nodeSpacing == spacing
      ensures graphData == old(graphData) && dimensions == old(dimensions) && zoomLevel == old(zoomLevel)
      ensures selectedNode == old(selectedNode) && hoveredNode == old(hoveredNode) && contextMenu == old(contextMenu)
      ensures showAllLabels == old(showAllLabels) && showProjectsExperiences == old(showProjectsExperiences)
      ensures Valid()
    {
      nodeSpacing := spacing;
    }

    /** `updateDimensions`, given the container's measured width. */
    method UpdateDimensions(width: real)
      requires Valid()
      modifies this
      ensures dimensions == Dimensions(width, GraphHeight(width))
      ensures graphData == old(graphData) && zoomLevel == old(zoomLevel)
      ensures selectedNode == old(selectedNode) && hoveredNode == old(hoveredNode) && contextMenu == old(contextMenu)
      ensures showAllLabels == old(showAllLabels) && showProjectsExperiences == old(showProjectsExperiences)
      ensures nodeSpacing == old(nodeSpacing)
      ensures Valid()
    {
      dimensions := Dimensions(width, GraphHeight(width));
    }
  }

  /** Clicking a node twice, with a close in between or not, leaves nothing selected and the panel hidden. */
  method ClickScenario(t: SkillTables, a: GraphNode, b: GraphNode)
  {
    var view := new SkillsView(t);
    view.HandleNodeClick(a);
    assert view.selectedNode == Some(a) && view.contextMenu.visible;
    view.HandleNodeClick(b);
    assert a.id != b.id ==> view.selectedNode == Some(b);
    assert a.id == b.id ==> view.selectedNode == None && !view.contextMenu.visible;
    view.HandleCloseContextMenu();
    assert view.selectedNode == None && view.contextMenu == ContextMenuState(false, None);
    view.SetShowProjectsExperiences(true);
    view.SetShowProjectsExperiences(false);
    assert view.graphData == BaseGraph(t);
  }
}
