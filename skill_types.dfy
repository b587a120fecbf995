// The data shapes of the skill graph: node types, nodes, links, graph data and the
// context-menu state (src/components/skills/types.ts).

module SkillTypes {
  import opened Lists

  /** The closed set of node types. */
  datatype NodeType =
    | Management
    | Proficiency
    | OpsDesign
    | DevTech
    | Category
    | CategoryManagement
    | CategoryProficiency
    | CategoryOpsDesign
    | CategoryDevTech
    | AiTech
    | Fabrication
    | Project
    | Experience
    | CategoryProject
    | CategoryExperience

  const AllNodeTypes: seq<NodeType> := [
    Management, Proficiency, OpsDesign, DevTech, Category,
    CategoryManagement, CategoryProficiency, CategoryOpsDesign, CategoryDevTech,
    AiTech, Fabrication, Project, Experience, CategoryProject, CategoryExperience
  ]

  /** The string literal that stands for each type in the TypeScript union. */
  function TypeTag(t: NodeType): string {
    match t
    case Management => "management"
    case Proficiency => "proficiency"
    case OpsDesign => "opsDesign"
    case DevTech => "devTech"
    case Category => "category"
    case CategoryManagement => "categoryManagement"
    case CategoryProficiency => "categoryProficiency"
    case CategoryOpsDesign => "categoryOpsDesign"
    case CategoryDevTech => "categoryDevTech"
    case AiTech => "aiTech"
    case Fabrication => "fabrication"
    case Project => "project"
    case Experience => "experience"
    case CategoryProject => "categoryProject"
    case CategoryExperience => "categoryExperience"
  }

  /** Reads a type tag back; anything outside the union is rejected. */
  function ParseNodeType(s: string): Option<NodeType> {
    if s == "management" then Some(Management)
    else if s == "proficiency" then Some(Proficiency)
    else if s == "opsDesign" then Some(OpsDesign)
    else if s == "devTech" then Some(DevTech)
    else if s == "category" then Some(Category)
    else if s == "categoryManagement" then Some(CategoryManagement)
    else if s == "categoryProficiency" then Some(CategoryProficiency)
    else if s == "categoryOpsDesign" then Some(CategoryOpsDesign)
    else if s == "categoryDevTech" then Some(CategoryDevTech)
    else if s == "aiTech" then Some(AiTech)
    else if s == "fabrication" then Some(Fabrication)
    else if s == "project" then Some(Project)
    else if s == "experience" then Some(Experience)
    else if s == "categoryProject" then Some(CategoryProject)
    else if s == "categoryExperience" then Some(CategoryExperience)
    else None
  }

  /** The six hub types, one per group of nodes; the generic `Category` is not one of them. */
  predicate IsCategoryVariant(t: NodeType) {
    t.CategoryManagement? || t.CategoryProficiency? || t.CategoryOpsDesign? || t.CategoryDevTech?
    || t.CategoryProject? || t.CategoryExperience?
  }

  /**
   * The union has exactly fifteen members with fifteen distinct tags: every tag
   * reads back as its own type, and the generic "category" tag is none of the six
   * hub tags.
   */
  lemma NodeTypeTags()
    ensures forall t: NodeType :: ParseNodeType(TypeTag(t)) == Some(t)
    ensures forall t: NodeType :: IsCategoryVariant(t) ==> TypeTag(t) != TypeTag(Category)
  {
    forall t: NodeType ensures ParseNodeType(TypeTag(t)) == Some(t) {
      match t
      case Management =>
      case Proficiency =>
      case OpsDesign =>
      case DevTech =>
      case Category =>
      case CategoryManagement =>
      case CategoryProficiency =>
      case CategoryOpsDesign =>
      case CategoryDevTech =>
      case AiTech =>
      case Fabrication =>
      case Project =>
      case Experience =>
      case CategoryProject =>
      case CategoryExperience =>
    }
  }

  /** `AllNodeTypes` lists each of the fifteen types exactly once. */
  lemma AllNodeTypesComplete()
    ensures |AllNodeTypes| == 15 && NoDuplicates(AllNodeTypes)
    ensures forall t: NodeType :: t in AllNodeTypes
  {
    forall t: NodeType ensures t in AllNodeTypes {
      match t
      case Management =>
      case Proficiency =>
      case OpsDesign =>
      case DevTech =>
      case Category =>
      case CategoryManagement =>
      case CategoryProficiency =>
      case CategoryOpsDesign =>
      case CategoryDevTech =>
      case AiTech =>
      case Fabrication =>
      case Project =>
      case Experience =>
      case CategoryProject =>
      case CategoryExperience =>
    }
  }

  /** `fx`/`fy`: absent, explicitly `null` (unpinned) or a fixed coordinate. */
  datatype Pin = Absent | Unpinned | PinnedAt(coordinate: real)

  /** A graph node; the optional properties of the interface are `Option`s. */
  datatype GraphNode = GraphNode(
    id: string,
    name: string,
    nodeType: NodeType,
    val: int,
    color: string,
    category: Option<string>,
    description: Option<string>,
    relatedProjects: Option<seq<string>>,
    relatedExperience: Option<seq<string>>,
    relatedPosts: Option<seq<string>>,
    fx: Pin,
    fy: Pin)

  /** A link names its endpoints by node id and may carry a weight. */
  datatype GraphLink = GraphLink(source: string, target: string, value: Option<real>)

  datatype GraphData = GraphData(nodes: seq<GraphNode>, links: seq<GraphLink>)

  /** The detail panel: a visibility flag and the node it shows, if any. */
  datatype ContextMenuState = ContextMenuState(visible: bool, node: Option<GraphNode>)
}
