// Construction of the skill graph (src/components/skills/index.tsx): the base graph of
// four hubs and their members, and the extended graph with project and experience
// nodes, connection counts and count-based node sizes. Each construction is a
// function that states the result and a method, written as the component writes
// it, proved to return that result.

module SkillBuilder {
  import opened Lists
  import opened Text
  import opened SkillTypes
  import opened SkillData

  /** The four skill groups of the base graph, in the order they are added. */
  datatype Group = ManagementGroup | ProficiencyGroup | OpsDesignGroup | DevTechGroup

  function HubId(g: Group): string {
    match g
    case ManagementGroup => "cat-management"
    case ProficiencyGroup => "cat-proficiencies"
    case OpsDesignGroup => "cat-opsDesign"
    case DevTechGroup => "cat-devTech"
  }

  function HubType(g: Group): NodeType {
    match g
    case ManagementGroup => CategoryManagement
    case ProficiencyGroup => CategoryProficiency
    case OpsDesignGroup => CategoryOpsDesign
    case DevTechGroup => CategoryDevTech
  }

  function MemberType(g: Group): NodeType {
    match g
    case ManagementGroup => Management
    case ProficiencyGroup => Proficiency
    case OpsDesignGroup => OpsDesign
    case DevTechGroup => DevTech
  }

  function HubName(g: Group): string {
    match g
    case ManagementGroup => "Management Skills"
    case ProficiencyGroup => "Proficiencies"
    case OpsDesignGroup => "Ops & Design Tools"
    case DevTechGroup => "Dev & Tech Tools"
  }

  // The hub descriptions, kept as named constants so that proofs about the nodes do not unfold the text.
  const ManagementHubText: string := "Core management skills including strategic planning, business development, and team leadership."
  const ProficiencyHubText: string := "Technical and creative proficiencies spanning both software and hardware domains."
  const OpsDesignHubText: string := "Tools and platforms used for operations, design, and creative work."
  const DevTechHubText: string := "Development tools, frameworks, and technologies used for software and AI projects."
  const ProjectsHubText: string := "Portfolio of projects spanning AI, web development, 3D printing, and more."
  const ExperiencesHubText: string := "Professional roles and responsibilities across various organizations."

  function HubDescription(g: Group): string {
    match g
    case ManagementGroup => ManagementHubText
    case ProficiencyGroup => ProficiencyHubText
    case OpsDesignGroup => OpsDesignHubText
    case DevTechGroup => DevTechHubText
  }

  function HubNode(g: Group): GraphNode {
    GraphNode(HubId(g), HubName(g), HubType(g), 15, NodeColor(HubType(g)),
              None, Some(HubDescription(g)), None, None, None, Absent, Absent)
  }

  function HubNodes(): seq<GraphNode> {
    [HubNode(ManagementGroup), HubNode(ProficiencyGroup), HubNode(OpsDesignGroup), HubNode(DevTechGroup)]
  }

  /** `nodeDescriptions[id] || ''`. */
  function DescriptionOf(t: SkillTables, id: string): string {
    if id in t.descriptions then t.descriptions[id] else ""
  }

  /** `index[key]`: the list stored under `key`, searched from the last entry back. */
  function Lookup(index: SkillIndex, key: string): Option<seq<string>> {
    if |index| == 0 then None
    else if index[|index| - 1].0 == key then Some(index[|index| - 1].1)
    else Lookup(index[..|index| - 1], key)
  }

  /** A key no entry has reads as `undefined`, and any key an entry has reads as some list. */
  lemma {:induction false} LookupAbsent(index: SkillIndex, key: string)
    ensures Lookup(index, key).None? <==> key !in Keys(index)
  {
    if |index| > 0 {
      var n := |index| - 1;
      LookupAbsent(index[..n], key);
      assert Keys(index) == Keys(index[..n]) + [index[n].0];
    }
  }

  /** With distinct keys, as in the site's indexes, a key reads as the list of its one entry. */
  lemma {:induction false} LookupFindsEntry(index: SkillIndex, key: string, k: nat)
    requires DistinctKeys(index) && k < |index| && index[k].0 == key
    ensures Lookup(index, key) == Some(index[k].1)
  {
    var n := |index| - 1;
    if k < n {
      assert Keys(index)[k] == key && Keys(index)[n] == index[n].0;
      assert Keys(index[..n]) == Keys(index)[..n];
      LookupFindsEntry(index[..n], key, k);
    }
  }

  /** `index[key] || []`. */
  function RelatedOrEmpty(index: SkillIndex, key: string): seq<string> {
    match Lookup(index, key)
    case Some(ids) => ids
    case None => []
  }

  /** On the site's indexes every skill's related list is exactly its entry's list. */
  lemma SiteRelatedLists()
    ensures forall k :: 0 <= k < |NodeToProjects| ==> RelatedOrEmpty(NodeToProjects, NodeToProjects[k].0) == NodeToProjects[k].1
    ensures forall k :: 0 <= k < |NodeToExperience| ==> RelatedOrEmpty(NodeToExperience, NodeToExperience[k].0) == NodeToExperience[k].1
  {
    SiteIndexKeysDistinct();
    forall k | 0 <= k < |NodeToProjects| ensures RelatedOrEmpty(NodeToProjects, NodeToProjects[k].0) == NodeToProjects[k].1 {
      LookupFindsEntry(NodeToProjects, NodeToProjects[k].0, k);
    }
    forall k | 0 <= k < |NodeToExperience| ensures RelatedOrEmpty(NodeToExperience, NodeToExperience[k].0) == NodeToExperience[k].1 {
      LookupFindsEntry(NodeToExperience, NodeToExperience[k].0, k);
    }
  }

  /** A skill or tool as a node of its group (val 5, category = the group's hub). */
  function MemberNode(t: SkillTables, g: Group, name: string): GraphNode {
    GraphNode(name, name, MemberType(g), 5, NodeColor(MemberType(g)),
              Some(HubId(g)), Some(DescriptionOf(t, name)),
              Some(RelatedOrEmpty(t.nodeToProjects, name)),
              Some(RelatedOrEmpty(t.nodeToExperience, name)),
              None, Absent, Absent)
  }

  /** The hub-to-member link, weight 1. */
  function MembershipLink(g: Group, name: string): GraphLink {
    GraphLink(HubId(g), name, Some(1.0))
  }

  /** The link for one relationship entry, weight 2. */
  function RelationshipLink(r: Relationship): GraphLink {
    GraphLink(r.source, r.target, Some(2.0))
  }

  /** A listed name together with its group. */
  datatype Member = Member(group: Group, name: string)

  function Tagged(g: Group, names: seq<string>): (ms: seq<Member>)
    ensures |ms| == |names|
    ensures forall i :: 0 <= i < |names| ==> ms[i] == Member(g, names[i])
  {
    seq(|names|, i requires 0 <= i < |names| => Member(g, names[i]))
  }

  /** All listed skills and tools, group by group, in list order. */
  function Members(t: SkillTables): seq<Member> {
    Tagged(ManagementGroup, t.management) + Tagged(ProficiencyGroup, t.proficiencies)
    + Tagged(OpsDesignGroup, t.opsDesignTools) + Tagged(DevTechGroup, t.devTechTools)
  }

  function MemberNodes(t: SkillTables, ms: seq<Member>): (r: seq<GraphNode>)
    ensures |r| == |ms|
    ensures forall i :: 0 <= i < |ms| ==> r[i] == MemberNode(t, ms[i].group, ms[i].name)
  {
    seq(|ms|, i requires 0 <= i < |ms| => MemberNode(t, ms[i].group, ms[i].name))
  }

  function MembershipLinks(ms: seq<Member>): (r: seq<GraphLink>)
    ensures |r| == |ms|
    ensures forall i :: 0 <= i < |ms| ==> r[i] == MembershipLink(ms[i].group, ms[i].name)
  {
    seq(|ms|, i requires 0 <= i < |ms| => MembershipLink(ms[i].group, ms[i].name))
  }

  function RelationshipLinks(rels: seq<Relationship>): (r: seq<GraphLink>)
    ensures |r| == |rels|
    ensures forall i :: 0 <= i < |rels| ==> r[i] == RelationshipLink(rels[i])
  {
    seq(|rels|, i requires 0 <= i < |rels| => RelationshipLink(rels[i]))
  }

  /** What `createBaseGraphData` returns: hubs, then each group's members; membership links, then relationship links. */
  function BaseGraph(t: SkillTables): GraphData {
    GraphData(HubNodes()
                + MemberNodes(t, Tagged(ManagementGroup, t.management))
                + MemberNodes(t, Tagged(ProficiencyGroup, t.proficiencies))
                + MemberNodes(t, Tagged(OpsDesignGroup, t.opsDesignTools))
                + MemberNodes(t, Tagged(DevTechGroup, t.devTechTools)),
              MembershipLinks(Tagged(ManagementGroup, t.management))
                + MembershipLinks(Tagged(ProficiencyGroup, t.proficiencies))
                + MembershipLinks(Tagged(OpsDesignGroup, t.opsDesignTools))
                + MembershipLinks(Tagged(DevTechGroup, t.devTechTools))
                + RelationshipLinks(t.relationships))
  }

  lemma MemberNodesAppend(t: SkillTables, a: seq<Member>, b: seq<Member>)
    ensures MemberNodes(t, a + b) == MemberNodes(t, a) + MemberNodes(t, b)
    ensures MembershipLinks(a + b) == MembershipLinks(a) + MembershipLinks(b)
  {
  }

  /** The `forEach` over one group: push its member nodes and membership links. */
  method PushGroup(t: SkillTables, g: Group, names: seq<string>, nodes0: seq<GraphNode>, links0: seq<GraphLink>)
    returns (nodes: seq<GraphNode>, links: seq<GraphLink>)
    ensures nodes == nodes0 + MemberNodes(t, Tagged(g, names))
    ensures links == links0 + MembershipLinks(Tagged(g, names))
  {
    nodes, links := nodes0, links0;
    var i := 0;
    while i < |names|
      invariant 0 <= i <= |names|
      invariant nodes == nodes0 + MemberNodes(t, Tagged(g, names[..i]))
      invariant links == links0 + MembershipLinks(Tagged(g, names[..i]))
    {
      assert Tagged(g, names[..i + 1]) == Tagged(g, names[..i]) + [Member(g, names[i])];
      MemberNodesAppend(t, Tagged(g, names[..i]), [Member(g, names[i])]);
      nodes := nodes + [MemberNode(t, g, names[i])];
      links := links + [MembershipLink(g, names[i])];
      i := i + 1;
    }
    assert names[..i] == names;
  }

  /** `relationships.forEach`: push one weight-2 link per entry. */
  method PushRelationships(rels: seq<Relationship>, links0: seq<GraphLink>) returns (links: seq<GraphLink>)
    ensures links == links0 + RelationshipLinks(rels)
  {
    links := links0;
    var i := 0;
    while i < |rels|
      invariant 0 <= i <= |rels|
      invariant links == links0 + RelationshipLinks(rels[..i])
    {
      assert RelationshipLinks(rels[..i + 1]) == RelationshipLinks(rels[..i]) + [RelationshipLink(rels[i])];
      links := links + [RelationshipLink(rels[i])];
      i := i + 1;
    }
    assert rels[..i] == rels;
  }

  lemma MembersSplit(t: SkillTables)
    ensures MemberNodes(t, Members(t)) ==
      MemberNodes(t, Tagged(ManagementGroup, t.management)) + MemberNodes(t, Tagged(ProficiencyGroup, t.proficiencies))
      + MemberNodes(t, Tagged(OpsDesignGroup, t.opsDesignTools)) + MemberNodes(t, Tagged(DevTechGroup, t.devTechTools))
    ensures MembershipLinks(Members(t)) ==
      MembershipLinks(Tagged(ManagementGroup, t.management)) + MembershipLinks(Tagged(ProficiencyGroup, t.proficiencies))
      + MembershipLinks(Tagged(OpsDesignGroup, t.opsDesignTools)) + MembershipLinks(Tagged(DevTechGroup, t.devTechTools))
  {
    var m1, m2 := Tagged(ManagementGroup, t.management), Tagged(ProficiencyGroup, t.proficiencies);
    var m3, m4 := Tagged(OpsDesignGroup, t.opsDesignTools), Tagged(DevTechGroup, t.devTechTools);
    MemberNodesAppend(t, m1, m2);
    MemberNodesAppend(t, m1 + m2, m3);
    MemberNodesAppend(t, m1 + m2 + m3, m4);
  }

  /** The base graph's nodes are the hubs followed by one node per member, its links one per member and one per relationship. */
  lemma BaseGraphByMembers(t: SkillTables)
    ensures BaseGraph(t).nodes == HubNodes() + MemberNodes(t, Members(t))
    ensures BaseGraph(t).links == MembershipLinks(Members(t)) + RelationshipLinks(t.relationships)
  {
    MembersSplit(t);
    var m1, m2 := MemberNodes(t, Tagged(ManagementGroup, t.management)), MemberNodes(t, Tagged(ProficiencyGroup, t.proficiencies));
    var m3, m4 := MemberNodes(t, Tagged(OpsDesignGroup, t.opsDesignTools)), MemberNodes(t, Tagged(DevTechGroup, t.devTechTools));
  }

  /** `createBaseGraphData`. */
  method CreateBaseGraphData(t: SkillTables) returns (g: GraphData)
    ensures g == BaseGraph(t)
  {
    var nodes := HubNodes();
    var links: seq<GraphLink> := [];
    nodes, links := PushGroup(t, ManagementGroup, t.management, nodes, links);
    assert links == MembershipLinks(Tagged(ManagementGroup, t.management));
    nodes, links := PushGroup(t, ProficiencyGroup, t.proficiencies, nodes, links);
    nodes, links := PushGroup(t, OpsDesignGroup, t.opsDesignTools, nodes, links);
    nodes, links := PushGroup(t, DevTechGroup, t.devTechTools, nodes, links);
    links := PushRelationships(t.relationships, links);
    g := GraphData(nodes, links);
  }

  /** A node as the base build makes it for a listed name: id and name are the name, val 5, category its hub. */
  predicate IsMemberNodeFor(n: GraphNode, m: Member) {
    n.id == m.name && n.name == m.name && n.val == 5 && n.nodeType == MemberType(m.group)
    && n.category == Some(HubId(m.group)) && !IsCategoryVariant(n.nodeType)
  }

  lemma HubNodesAreHubs()
    ensures |HubNodes()| == 4
    ensures forall i :: 0 <= i < 4 ==> HubNodes()[i].val == 15 && IsCategoryVariant(HubNodes()[i].nodeType)
  {
    forall i | 0 <= i < 4 ensures HubNodes()[i].val == 15 && IsCategoryVariant(HubNodes()[i].nodeType) {
      var g := if i == 0 then ManagementGroup else if i == 1 then ProficiencyGroup
               else if i == 2 then OpsDesignGroup else DevTechGroup;
      assert HubNodes()[i] == HubNode(g);
    }
  }

  lemma MemberNodeFor(t: SkillTables, m: Member)
    ensures IsMemberNodeFor(MemberNode(t, m.group, m.name), m)
  {
    match m.group
    case ManagementGroup =>
    case ProficiencyGroup =>
    case OpsDesignGroup =>
    case DevTechGroup =>
  }

  lemma HubsFirst(t: SkillTables, ms: seq<Member>)
    ensures |HubNodes() + MemberNodes(t, ms)| == 4 + |ms|
    ensures forall i :: 0 <= i < 4 ==>
      (HubNodes() + MemberNodes(t, ms))[i].val == 15 && IsCategoryVariant((HubNodes() + MemberNodes(t, ms))[i].nodeType)
  {
    HubNodesAreHubs();
    var h, m := HubNodes(), MemberNodes(t, ms);
    forall i | 0 <= i < 4 ensures (h + m)[i] == h[i] { }
  }

  lemma MemberNodesFor(t: SkillTables, ms: seq<Member>)
    ensures forall i :: 0 <= i < |ms| ==> IsMemberNodeFor(MemberNodes(t, ms)[i], ms[i])
  {
    forall i | 0 <= i < |ms| ensures IsMemberNodeFor(MemberNodes(t, ms)[i], ms[i]) {
      MemberNodeFor(t, ms[i]);
    }
  }

  lemma MembersAfterHubs(t: SkillTables, ms: seq<Member>)
    ensures forall i :: 0 <= i < |ms| ==> IsMemberNodeFor((HubNodes() + MemberNodes(t, ms))[4 + i], ms[i])
  {
    MemberNodesFor(t, ms);
    var h, m := HubNodes(), MemberNodes(t, ms);
    assert (h + m)[4..] == m;
  }

  /** The base graph has the four hubs (val 15), then one node per listed name, in list order. */
  lemma BaseGraphNodes(t: SkillTables)
    ensures |Members(t)| == |t.management| + |t.proficiencies| + |t.opsDesignTools| + |t.devTechTools|
    ensures |BaseGraph(t).nodes| == 4 + |Members(t)|
    ensures forall i :: 0 <= i < 4 ==>
      BaseGraph(t).nodes[i].val == 15 && IsCategoryVariant(BaseGraph(t).nodes[i].nodeType)
    ensures forall i :: 0 <= i < |Members(t)| ==> IsMemberNodeFor(BaseGraph(t).nodes[4 + i], Members(t)[i])
  {
    BaseGraphByMembers(t);
    HubsFirst(t, Members(t));
    MembersAfterHubs(t, Members(t));
  }

  /**
   * The base graph has one weight-1 hub-to-member link per member node, then one
   * weight-2 link per relationship entry, unfiltered and in list order.
   */
  lemma BaseGraphLinks(t: SkillTables)
    ensures var g := BaseGraph(t);
      |g.links| == |Members(t)| + |t.relationships|
      && (forall i :: 0 <= i < |Members(t)| ==>
            g.links[i] == GraphLink(HubId(Members(t)[i].group), Members(t)[i].name, Some(1.0)))
      && (forall k :: 0 <= k < |t.relationships| ==>
            g.links[|Members(t)| + k] == GraphLink(t.relationships[k].source, t.relationships[k].target, Some(2.0)))
  {
    BaseGraphByMembers(t);
    var ms := Members(t);
    var ml, rl := MembershipLinks(ms), RelationshipLinks(t.relationships);
    var links := BaseGraph(t).links;
    assert links == ml + rl;
    assert |links| == |ms| + |t.relationships|;
    forall i | 0 <= i < |ms|
      ensures links[i] == GraphLink(HubId(ms[i].group), ms[i].name, Some(1.0))
    {
      assert links[i] == ml[i];
    }
    forall k | 0 <= k < |t.relationships|
      ensures links[|ms| + k] == GraphLink(t.relationships[k].source, t.relationships[k].target, Some(2.0))
    {
      assert links[|ms| + k] == rl[k];
    }
  }

  // ---------------------------------------------------------------------------
  // Connection counts

  /** `x || 1` on a dictionary entry: a missing or zero entry reads as 1. */
  function OrOne(counts: map<string, int>, id: string): int {
    if id in counts && counts[id] != 0 then counts[id] else 1
  }

  /** The ids the count dictionary starts with: all skills, tools, projects and experiences. */
  function InitialIds(t: SkillTables): seq<string> {
    t.management + t.proficiencies + t.opsDesignTools + t.devTechTools + t.projects + t.experiences
  }

  /** Both endpoints of every relationship, in order. */
  function Endpoints(rels: seq<Relationship>): (r: seq<string>)
    ensures |r| == 2 * |rels|
  {
    if |rels| == 0 then []
    else Endpoints(rels[..|rels| - 1]) + [rels[|rels| - 1].source, rels[|rels| - 1].target]
  }

  /** What one index entry adds to the count of `id`: the list length for its key, 1 per mention in the list. */
  function EntryBump(entry: (string, seq<string>), id: string): nat {
    (if entry.0 == id then |entry.1| else 0) + Count(entry.1, id)
  }

  function IndexBump(index: SkillIndex, id: string): nat {
    if |index| == 0 then 0
    else IndexBump(index[..|index| - 1], id) + EntryBump(index[|index| - 1], id)
  }

  /** An entry with a non-empty list writes its key and every listed id. */
  predicate EntryMentions(entry: (string, seq<string>), id: string) {
    |entry.1| > 0 && (entry.0 == id || id in entry.1)
  }

  predicate Mentioned(index: SkillIndex, id: string) {
    if |index| == 0 then false
    else Mentioned(index[..|index| - 1], id) || EntryMentions(index[|index| - 1], id)
  }

  /** The connection count of an id: 1, plus relationship endpoints, plus index contributions. */
  function ConnectionCount(t: SkillTables, id: string): int {
    1 + Count(Endpoints(t.relationships), id) + IndexBump(t.nodeToProjects, id) + IndexBump(t.nodeToExperience, id)
  }

  /** The ids that end up as keys of `connectionCounts`. */
  predicate IsCounted(t: SkillTables, id: string) {
    id in InitialIds(t) || id in Endpoints(t.relationships)
    || Mentioned(t.nodeToProjects, id) || Mentioned(t.nodeToExperience, id)
  }

  lemma EndpointsStep(rels: seq<Relationship>, i: nat)
    requires i < |rels|
    ensures Endpoints(rels[..i + 1]) == Endpoints(rels[..i]) + [rels[i].source, rels[i].target]
    ensures forall k :: (Count(Endpoints(rels[..i + 1]), k) ==
      Count(Endpoints(rels[..i]), k) + (if rels[i].source == k then 1 else 0) + (if rels[i].target == k then 1 else 0))
  {
    var r := rels[i];
    assert rels[..i + 1][..i] == rels[..i];
    forall k ensures Count(Endpoints(rels[..i + 1]), k) == Count(Endpoints(rels[..i]), k)
      + (if r.source == k then 1 else 0) + (if r.target == k then 1 else 0)
    {
      CountAppend(Endpoints(rels[..i]), [r.source, r.target], k);
      assert [r.source, r.target][..1] == [r.source];
    }
  }

  /** Every listed id starts at 1. */
  method InitialCounts(ids: seq<string>) returns (counts: map<string, int>)
    ensures forall k :: k in counts <==> k in ids
    ensures forall k :: k in counts ==> counts[k] == 1
  {
    counts := map[];
    var i := 0;
    while i < |ids|
      invariant 0 <= i <= |ids|
      invariant forall k :: k in counts <==> k in ids[..i]
      invariant forall k :: k in counts ==> counts[k] == 1
    {
      assert ids[..i + 1] == ids[..i] + [ids[i]];
      counts := counts[ids[i] := 1];
      i := i + 1;
    }
    assert ids[..i] == ids;
  }

  /** `relationships.forEach`: each endpoint's count goes up by one. */
  method AddRelationshipCounts(counts0: map<string, int>, rels: seq<Relationship>) returns (counts: map<string, int>)
    requires forall k :: k in counts0 ==> counts0[k] >= 1
    ensures forall k :: k in counts ==> counts[k] >= 1
    ensures forall k :: k in counts <==> k in counts0 || k in Endpoints(rels)
    ensures forall k :: OrOne(counts, k) == OrOne(counts0, k) + Count(Endpoints(rels), k)
  {
    counts := counts0;
    var i := 0;
    while i < |rels|
      invariant 0 <= i <= |rels|
      invariant forall k :: k in counts ==> counts[k] >= 1
      invariant forall k :: k in counts <==> k in counts0 || k in Endpoints(rels[..i])
      invariant forall k :: OrOne(counts, k) == OrOne(counts0, k) + Count(Endpoints(rels[..i]), k)
    {
      var r := rels[i];
      EndpointsStep(rels, i);
      counts := counts[r.source := OrOne(counts, r.source) + 1];
      counts := counts[r.target := OrOne(counts, r.target) + 1];
      i := i + 1;
    }
    assert rels[..i] == rels;
  }

  /** The inner `forEach` of one entry: each listed id gains one. */
  method AddMentionCounts(counts0: map<string, int>, ids: seq<string>) returns (counts: map<string, int>)
    requires forall k :: k in counts0 ==> counts0[k] >= 1
    ensures forall k :: k in counts ==> counts[k] >= 1
    ensures forall k :: k in counts <==> k in counts0 || k in ids
    ensures forall k :: OrOne(counts, k) == OrOne(counts0, k) + Count(ids, k)
  {
    counts := counts0;
    var j := 0;
    while j < |ids|
      invariant 0 <= j <= |ids|
      invariant forall k :: k in counts ==> counts[k] >= 1
      invariant forall k :: k in counts <==> k in counts0 || k in ids[..j]
      invariant forall k :: OrOne(counts, k) == OrOne(counts0, k) + Count(ids[..j], k)
    {
      assert ids[..j + 1][..j] == ids[..j];
      counts := counts[ids[j] := OrOne(counts, ids[j]) + 1];
      j := j + 1;
    }
    assert ids[..j] == ids;
  }

  /** One entry of `Object.entries(index).forEach`: a non-empty list bumps its key by its length and each listed id by one. */
  method AddEntryCounts(counts0: map<string, int>, entry: (string, seq<string>)) returns (counts: map<string, int>)
    requires forall k :: k in counts0 ==> counts0[k] >= 1
    ensures forall k :: k in counts ==> counts[k] >= 1
    ensures forall k :: k in counts <==> k in counts0 || EntryMentions(entry, k)
    ensures forall k :: OrOne(counts, k) == OrOne(counts0, k) + EntryBump(entry, k)
  {
    counts := counts0;
    var (skill, ids) := entry;
    if |ids| > 0 {
      counts := counts[skill := OrOne(counts, skill) + |ids|];
      counts := AddMentionCounts(counts, ids);
    }
  }

  /** `Object.entries(index).forEach` over a whole index. */
  method AddIndexCounts(counts0: map<string, int>, index: SkillIndex) returns (counts: map<string, int>)
    requires forall k :: k in counts0 ==> counts0[k] >= 1
    ensures forall k :: k in counts ==> counts[k] >= 1
    ensures forall k :: k in counts <==> k in counts0 || Mentioned(index, k)
    ensures forall k :: OrOne(counts, k) == OrOne(counts0, k) + IndexBump(index, k)
  {
    counts := counts0;
    var i := 0;
    while i < |index|
      invariant 0 <= i <= |index|
      invariant forall k :: k in counts ==> counts[k] >= 1
      invariant forall k :: k in counts <==> k in counts0 || Mentioned(index[..i], k)
      invariant forall k :: OrOne(counts, k) == OrOne(counts0, k) + IndexBump(index[..i], k)
    {
      assert index[..i + 1][..i] == index[..i];
      counts := AddEntryCounts(counts, index[i]);
      i := i + 1;
    }
    assert index[..i] == index;
  }

  /** The `connectionCounts` dictionary of the extended build. */
  method CountConnections(t: SkillTables) returns (counts: map<string, int>)
    ensures forall k :: k in counts <==> IsCounted(t, k)
    ensures forall k :: OrOne(counts, k) == ConnectionCount(t, k)
    ensures forall k :: k in counts ==> counts[k] == ConnectionCount(t, k)
  {
    counts := InitialCounts(InitialIds(t));
    counts := AddRelationshipCounts(counts, t.relationships);
    counts := AddIndexCounts(counts, t.nodeToProjects);
    counts := AddIndexCounts(counts, t.nodeToExperience);
  }

  /** A listed id that no relationship and no non-empty index entry mentions keeps the starting count 1. */
  lemma {:induction false} UnmentionedBumpIsZero(index: SkillIndex, id: string)
    requires !Mentioned(index, id)
    ensures IndexBump(index, id) == 0
  {
    if |index| > 0 {
      UnmentionedBumpIsZero(index[..|index| - 1], id);
    }
  }

  /**
   * Membership links are not counted: an id that is only linked to its hub, and
   * touched by no relationship and no index entry, has count 1.
   */
  lemma UnrelatedCountIsOne(t: SkillTables, id: string)
    requires id !in Endpoints(t.relationships)
    requires !Mentioned(t.nodeToProjects, id) && !Mentioned(t.nodeToExperience, id)
    ensures ConnectionCount(t, id) == 1
  {
    UnmentionedBumpIsZero(t.nodeToProjects, id);
    UnmentionedBumpIsZero(t.nodeToExperience, id);
  }

  // ---------------------------------------------------------------------------
  // Extended graph

  const ProjectsHubId: string := "cat-projects"
  const ExperiencesHubId: string := "cat-experiences"

  function ProjectsHub(): GraphNode {
    GraphNode(ProjectsHubId, "Projects", CategoryProject, 15, NodeColor(CategoryProject), None,
              Some(ProjectsHubText),
              None, None, None, Absent, Absent)
  }

  function ExperiencesHub(): GraphNode {
    GraphNode(ExperiencesHubId, "Experience", CategoryExperience, 15, NodeColor(CategoryExperience), None,
              Some(ExperiencesHubText),
              None, None, None, Absent, Absent)
  }

  function Min(a: int, b: int): int {
    if a <= b then a else b
  }

  /** `3 + Math.min(count, cap)`. */
  function CappedSize(count: int, cap: int): int {
    3 + Min(count, cap)
  }

  /** The size the final pass gives every node that is not a hub: `3 + Math.min(count, 12)`. */
  function NodeSize(count: int): int {
    CappedSize(count, 12)
  }

  /** Sizes lie in 4..15 for every count the build produces, and grow with the count. */
  lemma NodeSizeRange(a: int, b: int)
    requires 1 <= a <= b
    ensures 4 <= NodeSize(a) <= NodeSize(b) <= 15
    ensures a < b <= 12 ==> NodeSize(a) < NodeSize(b)
  {
  }

  /** `experience.split(':')[0]`: the text before the first colon. */
  function CompanyName(e: string): (r: string)
    ensures r <= e && ':' !in r
    ensures |r| < |e| ==> e[|r|] == ':'
  {
    SplitFirstPiece(e, ':');
    Split(e, ':')[0]
  }

  /** A project node as `projects.map` builds it, from the count it reads. */
  function ProjectNode(t: SkillTables, p: string, count: int): GraphNode {
    GraphNode(p, FormatProjectName(p), Project, CappedSize(count, 10), NodeColor(Project),
              Some(ProjectsHubId), Some(DescriptionOf(t, p)), None, None, None, Absent, Absent)
  }

  /** An experience node as `experiences.map` builds it, from the count it reads. */
  function ExperienceNode(t: SkillTables, e: string, count: int): GraphNode {
    GraphNode(e, CompanyName(e), Experience, CappedSize(count, 10), NodeColor(Experience),
              Some(ExperiencesHubId), Some(DescriptionOf(t, e)), None, None, None, Absent, Absent)
  }

  function ProjectNodes(t: SkillTables): (r: seq<GraphNode>)
    ensures |r| == |t.projects|
    ensures forall i :: 0 <= i < |r| ==> r[i] == ProjectNode(t, t.projects[i], ConnectionCount(t, t.projects[i]))
  {
    seq(|t.projects|, i requires 0 <= i < |t.projects| => ProjectNode(t, t.projects[i], ConnectionCount(t, t.projects[i])))
  }

  function ExperienceNodes(t: SkillTables): (r: seq<GraphNode>)
    ensures |r| == |t.experiences|
    ensures forall i :: 0 <= i < |r| ==> r[i] == ExperienceNode(t, t.experiences[i], ConnectionCount(t, t.experiences[i]))
  {
    seq(|t.experiences|, i requires 0 <= i < |t.experiences| => ExperienceNode(t, t.experiences[i], ConnectionCount(t, t.experiences[i])))
  }

  /** One weight-1 link from `hub` to each id, in order. */
  function HubLinks(hub: string, ids: seq<string>): (r: seq<GraphLink>)
    ensures |r| == |ids|
    ensures forall i :: 0 <= i < |ids| ==> r[i] == GraphLink(hub, ids[i], Some(1.0))
  {
    seq(|ids|, i requires 0 <= i < |ids| => GraphLink(hub, ids[i], Some(1.0)))
  }

  /** The weight-1.5 links from `skill` to those of `targets` that are in `allowed`, in order. */
  function TargetLinks(skill: string, targets: seq<string>, allowed: seq<string>): (r: seq<GraphLink>)
    ensures |r| <= |targets|
    ensures forall l :: l in r <==> l.source == skill && l.target in targets && l.target in allowed && l.value == Some(1.5)
  {
    if |targets| == 0 then []
    else
      var x := targets[|targets| - 1];
      assert targets == targets[..|targets| - 1] + [x];
      TargetLinks(skill, targets[..|targets| - 1], allowed)
      + (if x in allowed then [GraphLink(skill, x, Some(1.5))] else [])
  }

  /**
   * The skill links built from an index: for each entry in order, a link from its
   * key to each of its listed ids that is in `allowed`.
   */
  function SkillLinks(index: SkillIndex, allowed: seq<string>): (r: seq<GraphLink>)
    ensures forall l :: l in r <==>
      l.target in allowed && l.value == Some(1.5)
      && exists k :: 0 <= k < |index| && l.source == index[k].0 && l.target in index[k].1
  {
    if |index| == 0 then []
    else
      var n := |index| - 1;
      assert forall k :: 0 <= k < n ==> index[..n][k] == index[k];
      SkillLinks(index[..n], allowed) + TargetLinks(index[n].0, index[n].1, allowed)
  }

  /** The final pass: every node that is not a hub gets the size of its connection count. */
  function Resized(t: SkillTables, n: GraphNode): GraphNode {
    if IsCategoryVariant(n.nodeType) then n else n.(val := NodeSize(ConnectionCount(t, n.id)))
  }

  function ResizedAll(t: SkillTables, ns: seq<GraphNode>): (r: seq<GraphNode>)
    ensures |r| == |ns|
    ensures forall i :: 0 <= i < |ns| ==> r[i] == Resized(t, ns[i])
  {
    seq(|ns|, i requires 0 <= i < |ns| => Resized(t, ns[i]))
  }

  /** The nodes of the extended build before the final pass. */
  function ExtendedNodes(t: SkillTables): seq<GraphNode> {
    BaseGraph(t).nodes + [ProjectsHub(), ExperiencesHub()] + ProjectNodes(t) + ExperienceNodes(t)
  }

  /** What the extended-dataset effect stores as the graph data. */
  function ExtendedGraph(t: SkillTables): GraphData {
    GraphData(ResizedAll(t, ExtendedNodes(t)),
              BaseGraph(t).links
                + HubLinks(ProjectsHubId, t.projects)
                + HubLinks(ExperiencesHubId, t.experiences)
                + SkillLinks(t.nodeToProjects, t.projects)
                + SkillLinks(t.nodeToExperience, t.experiences))
  }

  /** `nodes.forEach(n => links.push({ source: hub, target: n.id, value: 1 }))` over the new nodes. */
  method PushHubLinks(hub: string, members: seq<GraphNode>, links0: seq<GraphLink>) returns (links: seq<GraphLink>)
    ensures links == links0 + HubLinks(hub, seq(|members|, i requires 0 <= i < |members| => members[i].id))
  {
    ghost var ids := seq(|members|, i requires 0 <= i < |members| => members[i].id);
    links := links0;
    var i := 0;
    while i < |members|
      invariant 0 <= i <= |members|
      invariant links == links0 + HubLinks(hub, ids[..i])
    {
      assert HubLinks(hub, ids[..i + 1]) == HubLinks(hub, ids[..i]) + [GraphLink(hub, members[i].id, Some(1.0))];
      links := links + [GraphLink(hub, members[i].id, Some(1.0))];
      i := i + 1;
    }
    assert ids[..i] == ids;
  }

  /** The `Object.entries(index).forEach` that links each key to the listed ids found in `allowed`. */
  method PushSkillLinks(index: SkillIndex, allowed: seq<string>, links0: seq<GraphLink>) returns (links: seq<GraphLink>)
    ensures links == links0 + SkillLinks(index, allowed)
  {
    links := links0;
    var i := 0;
    while i < |index|
      invariant 0 <= i <= |index|
      invariant links == links0 + SkillLinks(index[..i], allowed)
    {
      var (skill, targets) := index[i];
      ghost var before := links;
      var j := 0;
      while j < |targets|
        invariant 0 <= j <= |targets|
        invariant links == before + TargetLinks(skill, targets[..j], allowed)
      {
        assert targets[..j + 1][..j] == targets[..j];
        if targets[j] in allowed {
          links := links + [GraphLink(skill, targets[j], Some(1.5))];
        }
        j := j + 1;
      }
      assert targets[..j] == targets;
      assert index[..i + 1][..i] == index[..i];
      i := i + 1;
    }
    assert index[..i] == index;
  }

  /** The final `nodes.forEach`, which overwrites `val` of every node that is not a hub. */
  method ResizeNodes(t: SkillTables, counts: map<string, int>, nodes0: seq<GraphNode>) returns (nodes: seq<GraphNode>)
    requires forall k :: OrOne(counts, k) == ConnectionCount(t, k)
    ensures nodes == ResizedAll(t, nodes0)
  {
    nodes := nodes0;
    var i := 0;
    while i < |nodes|
      invariant |nodes| == |nodes0| && 0 <= i <= |nodes|
      invariant forall k :: 0 <= k < i ==> nodes[k] == Resized(t, nodes0[k])
      invariant forall k :: i <= k < |nodes| ==> nodes[k] == nodes0[k]
    {
      var node := nodes[i];
      if !IsCategoryVariant(node.nodeType) {
        nodes := nodes[i := node.(val := NodeSize(OrOne(counts, node.id)))];
      }
      i := i + 1;
    }
  }

  /** The project and experience part of the effect: two hubs, the mapped nodes, and their hub links. */
  method AddProjectsAndExperiences(t: SkillTables, counts: map<string, int>, nodes0: seq<GraphNode>, links0: seq<GraphLink>)
    returns (nodes: seq<GraphNode>, links: seq<GraphLink>)
    requires forall k :: OrOne(counts, k) == ConnectionCount(t, k)
    ensures nodes == nodes0 + [ProjectsHub(), ExperiencesHub()] + ProjectNodes(t) + ExperienceNodes(t)
    ensures links == links0 + HubLinks(ProjectsHubId, t.projects) + HubLinks(ExperiencesHubId, t.experiences)
  {
    var projectNodes := seq(|t.projects|, i requires 0 <= i < |t.projects| =>
      ProjectNode(t, t.projects[i], OrOne(counts, t.projects[i])));
    var experienceNodes := seq(|t.experiences|, i requires 0 <= i < |t.experiences| =>
      ExperienceNode(t, t.experiences[i], OrOne(counts, t.experiences[i])));
    assert projectNodes == ProjectNodes(t);
    assert experienceNodes == ExperienceNodes(t);
    nodes := nodes0 + [ProjectsHub(), ExperiencesHub()] + projectNodes + experienceNodes;
    assert seq(|projectNodes|, i requires 0 <= i < |projectNodes| => projectNodes[i].id) == t.projects;
    assert seq(|experienceNodes|, i requires 0 <= i < |experienceNodes| => experienceNodes[i].id) == t.experiences;
    links := PushHubLinks(ProjectsHubId, projectNodes, links0);
    links := PushHubLinks(ExperiencesHubId, experienceNodes, links);
  }

  /** The extended-dataset effect with the toggle on: base graph, projects and experiences, skill links, then the final sizes. */
  method CreateExtendedGraphData(t: SkillTables) returns (g: GraphData)
    ensures g == ExtendedGraph(t)
  {
    var base := CreateBaseGraphData(t);
    var counts := CountConnections(t);
    var nodes, links := AddProjectsAndExperiences(t, counts, base.nodes, base.links);
    links := PushSkillLinks(t.nodeToProjects, t.projects, links);
    links := PushSkillLinks(t.nodeToExperience, t.experiences, links);
    nodes := ResizeNodes(t, counts, nodes);
    g := GraphData(nodes, links);
  }

  // ---------------------------------------------------------------------------
  // Properties of the extended graph

  /** Every count the build produces is at least the starting 1. */
  lemma ConnectionCountPositive(t: SkillTables, id: string)
    ensures ConnectionCount(t, id) >= 1
  {
  }

  /** In the base graph the hub-typed nodes are the four hubs, of val 15. */
  lemma BaseHubsAre15(t: SkillTables)
    ensures forall n :: n in BaseGraph(t).nodes && IsCategoryVariant(n.nodeType) ==> n.val == 15
  {
    BaseGraphNodes(t);
    var b := BaseGraph(t).nodes;
    forall n | n in b ensures IsCategoryVariant(n.nodeType) ==> n.val == 15 {
      var i :| 0 <= i < |b| && b[i] == n;
      if i >= 4 {
        assert IsMemberNodeFor(b[4 + (i - 4)], Members(t)[i - 4]);
      }
    }
  }

  /** Before the final pass, the hub-typed nodes (four base hubs and the two new ones) are the ones of val 15. */
  lemma ExtendedNodesHubsAre15(t: SkillTables)
    ensures forall n :: n in ExtendedNodes(t) && IsCategoryVariant(n.nodeType) ==> n.val == 15
  {
    BaseHubsAre15(t);
    var p, e := ProjectNodes(t), ExperienceNodes(t);
    assert forall n :: n in p ==> n.nodeType == Project;
    assert forall n :: n in e ==> n.nodeType == Experience;
  }

  /**
   * In the extended graph the hubs keep val 15 and every other node has
   * `3 + min(count, 12)`, which lies in 4..15.
   */
  lemma ExtendedNodeSizes(t: SkillTables)
    ensures forall n :: n in ExtendedGraph(t).nodes && IsCategoryVariant(n.nodeType) ==> n.val == 15
    ensures forall n :: n in ExtendedGraph(t).nodes && !IsCategoryVariant(n.nodeType) ==>
      n.val == NodeSize(ConnectionCount(t, n.id)) && 4 <= n.val <= 15
  {
    ExtendedNodesHubsAre15(t);
    var ns := ExtendedNodes(t);
    var r := ExtendedGraph(t).nodes;
    forall n | n in r
      ensures IsCategoryVariant(n.nodeType) ==> n.val == 15
      ensures !IsCategoryVariant(n.nodeType) ==> n.val == NodeSize(ConnectionCount(t, n.id)) && 4 <= n.val <= 15
    {
      var i :| 0 <= i < |r| && r[i] == n;
      assert n == Resized(t, ns[i]) && ns[i] in ns;
      ConnectionCountPositive(t, ns[i].id);
    }
  }

  /**
   * The i-th project node: id, formatted name, project type and hub. Its val is the
   * cap-12 size, so the cap-10 size set by `projects.map` is overwritten and
   * differs from the final one whenever the count exceeds 10.
   */
  lemma ExtendedProjectNode(t: SkillTables, i: nat)
    requires i < |t.projects|
    ensures var n := ExtendedGraph(t).nodes[4 + |Members(t)| + 2 + i];
      var c := ConnectionCount(t, t.projects[i]);
      n.id == t.projects[i] && n.name == FormatProjectName(t.projects[i]) && n.nodeType == Project
      && n.category == Some(ProjectsHubId) && n.val == NodeSize(c)
      && (c > 10 ==> n.val != CappedSize(c, 10))
  {
    BaseGraphNodes(t);
    var b, p, e := BaseGraph(t).nodes, ProjectNodes(t), ExperienceNodes(t);
    var ns := ExtendedNodes(t);
    assert ns == b + [ProjectsHub(), ExperiencesHub()] + p + e;
    var k := |b| + 2 + i;
    var c := ConnectionCount(t, t.projects[i]);
    assert ns[k] == p[i] == ProjectNode(t, t.projects[i], c);
    assert ExtendedGraph(t).nodes[k] == Resized(t, ns[k]) == ProjectNode(t, t.projects[i], c).(val := NodeSize(c));
  }

  /** The i-th experience node: id, the company part of the entry as name, experience type and hub, cap-12 size. */
  lemma ExtendedExperienceNode(t: SkillTables, i: nat)
    requires i < |t.experiences|
    ensures var n := ExtendedGraph(t).nodes[4 + |Members(t)| + 2 + |t.projects| + i];
      var c := ConnectionCount(t, t.experiences[i]);
      n.id == t.experiences[i] && n.name == CompanyName(t.experiences[i]) && n.nodeType == Experience
      && n.category == Some(ExperiencesHubId) && n.val == NodeSize(c)
      && (c > 10 ==> n.val != CappedSize(c, 10))
  {
    BaseGraphNodes(t);
    var b, p, e := BaseGraph(t).nodes, ProjectNodes(t), ExperienceNodes(t);
    var ns := ExtendedNodes(t);
    assert ns == b + [ProjectsHub(), ExperiencesHub()] + p + e;
    var k := |b| + 2 + |p| + i;
    var c := ConnectionCount(t, t.experiences[i]);
    assert ns[k] == e[i] == ExperienceNode(t, t.experiences[i], c);
    assert ExtendedGraph(t).nodes[k] == Resized(t, ns[k]) == ExperienceNode(t, t.experiences[i], c).(val := NodeSize(c));
  }

  /** No link of the base graph has the skill-link weight 1.5. */
  lemma BaseLinkWeights(t: SkillTables)
    ensures forall l :: l in BaseGraph(t).links ==> l.value == Some(1.0) || l.value == Some(2.0)
  {
    BaseGraphByMembers(t);
    var a, r := MembershipLinks(Members(t)), RelationshipLinks(t.relationships);
    assert forall l :: l in a ==> l.value == Some(1.0);
    assert forall l :: l in r ==> l.value == Some(2.0);
  }

  /** The extended links are the base links, one weight-1 link per project and per experience, and the skill links. */
  lemma ExtendedLinkCount(t: SkillTables)
    ensures |ExtendedGraph(t).links| == |Members(t)| + |t.relationships| + |t.projects| + |t.experiences|
      + |SkillLinks(t.nodeToProjects, t.projects)| + |SkillLinks(t.nodeToExperience, t.experiences)|
  {
    BaseGraphLinks(t);
  }

  /** Every weight-1.5 link of the extended graph points at a listed project or experience. */
  lemma ExtendedSkillLinkTargets(t: SkillTables)
    ensures forall l :: l in ExtendedGraph(t).links && l.value == Some(1.5) ==>
      l.target in t.projects || l.target in t.experiences
  {
    BaseLinkWeights(t);
    var b := BaseGraph(t).links;
    var h1, h2 := HubLinks(ProjectsHubId, t.projects), HubLinks(ExperiencesHubId, t.experiences);
    var s1, s2 := SkillLinks(t.nodeToProjects, t.projects), SkillLinks(t.nodeToExperience, t.experiences);
    assert ExtendedGraph(t).links == b + h1 + h2 + s1 + s2;
    forall l: GraphLink | l in b + h1 + h2 + s1 + s2 ensures l.value == Some(1.5) ==> l.target in t.projects || l.target in t.experiences {
      if l in h1 || l in h2 {
        assert l.value == Some(1.0);
      }
    }
  }

  /** Each listed id of an index entry that is in the allowed list gets its weight-1.5 link from the entry's key. */
  lemma ExtendedSkillLinksPresent(t: SkillTables)
    ensures forall k, x :: 0 <= k < |t.nodeToProjects| && x in t.nodeToProjects[k].1 && x in t.projects ==>
      GraphLink(t.nodeToProjects[k].0, x, Some(1.5)) in ExtendedGraph(t).links
    ensures forall k, x :: 0 <= k < |t.nodeToExperience| && x in t.nodeToExperience[k].1 && x in t.experiences ==>
      GraphLink(t.nodeToExperience[k].0, x, Some(1.5)) in ExtendedGraph(t).links
  {
    var s1, s2 := SkillLinks(t.nodeToProjects, t.projects), SkillLinks(t.nodeToExperience, t.experiences);
    assert forall l :: l in s1 ==> l in ExtendedGraph(t).links;
    assert forall l :: l in s2 ==> l in ExtendedGraph(t).links;
  }

  /** The ids of a node list, in order. */
  function NodeIds(ns: seq<GraphNode>): (r: seq<string>)
    ensures |r| == |ns|
    ensures forall i :: 0 <= i < |ns| ==> r[i] == ns[i].id
  {
    seq(|ns|, i requires 0 <= i < |ns| => ns[i].id)
  }

  /** The four lists of skill and tool names, concatenated. */
  function ListedNames(t: SkillTables): seq<string> {
    t.management + t.proficiencies + t.opsDesignTools + t.devTechTools
  }

  lemma MemberNames(t: SkillTables)
    ensures |Members(t)| == |ListedNames(t)|
    ensures forall i :: 0 <= i < |Members(t)| ==> Members(t)[i].name == ListedNames(t)[i]
  {
    var ms, ns := Members(t), ListedNames(t);
    var a, b, c := |t.management|, |t.proficiencies|, |t.opsDesignTools|;
    forall i | 0 <= i < |ms| ensures ms[i].name == ns[i] {
      if i < a {
        assert ms[i] == Tagged(ManagementGroup, t.management)[i];
      } else if i < a + b {
        assert ms[i] == Tagged(ProficiencyGroup, t.proficiencies)[i - a];
      } else if i < a + b + c {
        assert ms[i] == Tagged(OpsDesignGroup, t.opsDesignTools)[i - a - b];
      } else {
        assert ms[i] == Tagged(DevTechGroup, t.devTechTools)[i - a - b - c];
      }
    }
  }

  const HubIds: seq<string> := [HubId(ManagementGroup), HubId(ProficiencyGroup), HubId(OpsDesignGroup), HubId(DevTechGroup)]

  /** The four hub ids are distinct and all begin with 'c'. */
  lemma HubIdsDistinct()
    ensures NoDuplicates(HubIds)
    ensures forall x :: x in HubIds ==> |x| > 0 && x[0] == 'c'
  {
    var h := HubIds;
    assert h[0][4] == 'm' && h[1][4] == 'p' && h[2][4] == 'o' && h[3][4] == 'd';
    assert h[0][0] == 'c' && h[1][0] == 'c' && h[2][0] == 'c' && h[3][0] == 'c';
  }

  /** The base graph's node ids are the four hub ids followed by the listed names. */
  lemma BaseGraphIds(t: SkillTables)
    ensures NodeIds(BaseGraph(t).nodes) == HubIds + ListedNames(t)
  {
    BaseGraphNodes(t);
    MemberNames(t);
    var ids := NodeIds(BaseGraph(t).nodes);
    forall i | 0 <= i < |ids| ensures ids[i] == (HubIds + ListedNames(t))[i] {
      if i < 4 {
        assert BaseGraph(t).nodes[i] == HubNodes()[i];
      } else {
        assert IsMemberNodeFor(BaseGraph(t).nodes[4 + (i - 4)], Members(t)[i - 4]);
      }
    }
  }

  /**
   * Node ids are unique when the listed names are distinct and none of them can be
   * a hub id (hub ids begin with 'c').
   */
  lemma BaseGraphIdsUnique(t: SkillTables)
    requires NoDuplicates(ListedNames(t))
    requires forall x :: x in ListedNames(t) ==> |x| > 0 && x[0] != 'c'
    ensures NoDuplicates(NodeIds(BaseGraph(t).nodes))
  {
    BaseGraphIds(t);
    HubIdsDistinct();
    NoDuplicatesAppend(HubIds, ListedNames(t));
  }

  /** The site's base graph has unique node ids. */
  lemma SiteBaseGraphIdsUnique(descriptions: map<string, string>)
    ensures NoDuplicates(NodeIds(BaseGraph(SiteTables(descriptions)).nodes))
  {
    var t := SiteTables(descriptions);
    SkillListsDistinct();
    SkillListsDisjoint();
    SkillNamesAvoidHubPrefix();
    NoDuplicatesAppend(ManagementSkills, ProficiencySkills);
    NoDuplicatesAppend(ManagementSkills + ProficiencySkills, OpsDesignToolNames);
    NoDuplicatesAppend(ManagementSkills + ProficiencySkills + OpsDesignToolNames, DevTechToolNames);
    assert ListedNames(t) == Skills;
    BaseGraphIdsUnique(t);
  }
}
