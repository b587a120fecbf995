# A model of the logic of michaelmoceri.com

This Dafny project models the logic of a personal portfolio and blog site, which is written in React and TypeScript. The model has four parts:

- **The interactive skill graph** (`src/components/skills/`). It covers:
  - the static skill tables;
  - the base and extended graph builds: the hub nodes, member nodes, connection counts, node sizing and the three kinds of links;
  - the component state and its handlers: selection, the context panel, zoom, the height rule and the extended-mode toggle;
  - the drawing and force-parameter rules of the canvas;
  - the decisions of the context panel: connected nodes, the empty state, colours, the badge and the tabs.
- **The blog store** (`src/lib/mdx.ts`) and the two pages that read it: the search page (`BlogSearch.tsx`) and the sidebar (`BlogSidebar.tsx`).
- **The projects listing** (`ProjectsPage.tsx`), with its three filters, and the project detail page's cyclic previous/next navigation (`ProjectDetail.tsx`).
- **The public image path builders** (`src/lib/imageUtils.ts`).

Files:

| file | module | models |
|---|---|---|
| `text.dfy` | `Text` | the JavaScript string operations the code uses: ASCII case mapping, `includes`, `split`/`join`, `trim`, code-unit order, number formatting |
| `lists.dfy` | `Lists` | filter, dedupe (`Array.from(new Set(..))`), flatten, sort and counting, with their lemmas |
| `skill_types.dfy` | `SkillTypes` | `types.ts`: node types, graph nodes/links/data, the context-menu state |
| `skill_data.dfy` | `SkillData` | `data.ts`: the colour map, the tables, `formatProjectName` and integrity lemmas |
| `skill_builder.dfy` | `SkillBuilder` | `index.tsx`: the base build, the connection counts and the extended build (methods with loops proved against functions) |
| `skill_view.dfy` | `SkillView` | `index.tsx`: the component state as a class and its handlers |
| `skill_render.dfy` | `SkillRender` | `SkillGraph.tsx`: the radius, outline, label, highlight, particle, distance, collision and charge rules |
| `skill_context_menu.dfy` | `SkillContextMenu` | `SkillContextMenu.tsx` |
| `blog_store.dfy` | `BlogStore` | `mdx.ts` |
| `blog_search.dfy` | `BlogSearch` | `BlogSearch.tsx` (the page state as a class) |
| `blog_sidebar.dfy` | `BlogSidebar` | `BlogSidebar.tsx` (the category-count loop as a method) |
| `projects_page.dfy` | `ProjectsPage` | `ProjectsPage.tsx` (the page state as a class) |
| `project_detail.dfy` | `ProjectDetail` | `ProjectDetail.tsx` |
| `image_utils.dfy` | `ImageUtils` | `imageUtils.ts` |

Imperative code stays imperative in the model:

- The graph builds push into node and link arrays in loops. The connection counts are filled into a dictionary. The sidebar fills its count dictionary in a loop. The model writes each of these as a method with a `while` loop, and proves it equal to a specification function (`BaseGraph`, `ExtendedGraph`, `ConnectionCount`, `CategoryCount`). The properties are then proved about those functions.
- Component state that handlers update becomes a class whose methods state the whole new state. The skill graph view, the search page, the sidebar, the projects page and the panel tabs are modelled this way.

## Model

| member | source | states |
|---|---|---|
| SkillTypes.NodeTypeTags | src/components/skills/types.ts:2-17 | each node type's tag parses back to that type, and no categoryX tag equals the generic 'category' tag |
| SkillTypes.AllNodeTypesComplete | src/components/skills/types.ts:2-17 | there are exactly 15 node types, all distinct, and the list names every one |
| SkillData.HubColorsMatchMembers | src/components/skills/data.ts:4-20 | the colour map is total; each category variant has the colour of the member kind it groups; every colour is a 7-character '#' code |
| SkillData.CapitalizeAll | src/components/skills/data.ts:380 | maps each word to itself with its first character upper-cased |
| SkillData.DashesToTitle | src/components/skills/data.ts:379-381 | the character-wise reference for the formatted name: same length as the id |
| SkillData.FormatProjectName | src/components/skills/data.ts:379-381 | split on '-', capitalise every word, join with spaces; specified by the character-wise reference below |
| SkillData.FormatProjectNameCharwise | src/components/skills/data.ts:379-381 | the split/capitalize/join result equals the character-wise reference: same length and no '-' |
| SkillData.WordIsTitle | src/components/skills/data.ts:380 | on a word without '-' the two definitions agree |
| SkillData.FormatAtFirstDash | src/components/skills/data.ts:380 | the formatted name is the capitalised first word, a space, and the formatted rest |
| SkillData.TitleAtFirstDash | src/components/skills/data.ts:380 | the reference splits the same way at any '-' |
| SkillData.TitleHasNoDash | src/components/skills/data.ts:380 | each '-' is replaced, so the reference contains no '-' |
| SkillData.RelationshipEndpointsAreSkills | src/components/skills/data.ts:242-376 | every relationship endpoint is one of the listed skills or tools |
| SkillData.ProjectIndexTargetsListed | src/components/skills/data.ts:23-35 | every key of the skill-to-projects index is a skill, and every id it lists is a project id |
| SkillData.ExperienceIndexTargetsListed | src/components/skills/data.ts:38-46 | every key of the skill-to-experience index is a skill, and every entry it lists is an experience |
| SkillData.SkillListsDistinct | src/components/skills/data.ts:242-315 | no skill list repeats a name |
| SkillData.ManagementProficiencyDisjoint | src/components/skills/data.ts:243-267 | the management and proficiency lists share no name |
| SkillData.ManagementOpsDesignDisjoint | src/components/skills/data.ts:243-286 | the management and ops/design lists share no name |
| SkillData.ManagementDevTechDisjoint | src/components/skills/data.ts:242-315 | the management and dev/tech lists share no name |
| SkillData.ProficiencyOpsDesignDisjoint | src/components/skills/data.ts:255-286 | the proficiency and ops/design lists share no name |
| SkillData.ProficiencyDevTechDisjoint | src/components/skills/data.ts:255-314 | the proficiency and dev/tech lists share no name |
| SkillData.OpsDesignDevTechDisjoint | src/components/skills/data.ts:268-314 | the ops/design and dev/tech lists share no name |
| SkillData.SkillListsDisjoint | src/components/skills/data.ts:242-315 | the four lists are pairwise disjoint |
| SkillData.ManagementAvoidsHubPrefix | src/components/skills/data.ts:243-254 | no management name starts with 'c', the first letter of every hub id |
| SkillData.ProficiencyAvoidsHubPrefix | src/components/skills/data.ts:255-267 | no proficiency name starts with 'c' |
| SkillData.OpsDesignAvoidsHubPrefix | src/components/skills/data.ts:268-286 | no ops/design name starts with 'c' |
| SkillData.DevTechAvoidsHubPrefix | src/components/skills/data.ts:287-314 | no dev/tech name starts with 'c' |
| SkillData.SkillNamesAvoidHubPrefix | src/components/skills/data.ts:242-315 | no skill can collide with a `cat-` hub id |
| SkillData.TableSizes | src/components/skills/data.ts:23-376 | the sizes of the tables: 10, 11, 17 and 26 skills, 50 relationships, 11 projects, 7 experiences, 35 and 37 index entries |
| SkillData.Keys | src/components/skills/data.ts:148-239 | the keys of an index, one per entry, in entry order |
| SkillData.SiteIndexKeysDistinct | src/components/skills/data.ts:148-239 | `nodeToProjects` and `nodeToExperience` write each key once, as a `Record<string, string[]>` literal does |
| SkillData.RelationshipsKeepMirroredPair | src/components/skills/data.ts:367-375 | the list is not de-duplicated: RAG pipelines→Vector DB and its mirror are both present |
| SkillBuilder.LookupAbsent | src/components/skills/index.tsx:53-54 | `index[key]` is undefined iff no entry has the key |
| SkillBuilder.LookupFindsEntry | src/components/skills/index.tsx:53-54 | with distinct keys, `index[key]` is the list of the key's entry |
| SkillBuilder.SiteRelatedLists | src/components/skills/index.tsx:53-54 | on the site's indexes, a skill's related projects and related experience are exactly its entry lists |
| SkillBuilder.BaseGraph | src/components/skills/index.tsx:31-110 | `createBaseGraphData`: the four hubs, one node per listed skill, membership links then relationship links |
| SkillBuilder.ExtendedGraph | src/components/skills/index.tsx:118-284 | the extended build: base nodes, the two new hubs, project and experience nodes, all resized; base links plus the index links |
| SkillBuilder.ConnectionCount | src/components/skills/index.tsx:150-182 | 1, plus the id's relationship endpoints, plus its index contributions; the loop methods below are proved to compute it |
| SkillBuilder.Resized | src/components/skills/index.tsx:258-267 | the final pass keeps the six hubs' sizes and sets every other node's size from its connection count |
| SkillBuilder.NodeSize | src/components/skills/index.tsx:265 | `3 + Math.min(count, 12)` |
| SkillBuilder.Tagged | src/components/skills/index.tsx:44-102 | each name of a list paired with its group, in order |
| SkillBuilder.MemberNodes | src/components/skills/index.tsx:45-55 | one member node per member, in order |
| SkillBuilder.MembershipLinks | src/components/skills/index.tsx:56 | one hub→member link per member, in order |
| SkillBuilder.RelationshipLinks | src/components/skills/index.tsx:105-107 | one link per relationship, in order |
| SkillBuilder.MemberNodesAppend | src/components/skills/index.tsx:44-102 | building over a concatenation is concatenating the builds |
| SkillBuilder.PushGroup | src/components/skills/index.tsx:44-57 | the forEach over one list appends exactly that group's member nodes and membership links |
| SkillBuilder.PushRelationships | src/components/skills/index.tsx:105-107 | the forEach appends one weight-2 link per relationship, unfiltered |
| SkillBuilder.MembersSplit | src/components/skills/index.tsx:44-102 | the member sequence is the four groups in source order |
| SkillBuilder.BaseGraphByMembers | src/components/skills/index.tsx:31-110 | the base graph is the hubs, then the members; membership links, then relationship links |
| SkillBuilder.CreateBaseGraphData | src/components/skills/index.tsx:31-110 | the imperative build returns exactly the base graph |
| SkillBuilder.HubNodesAreHubs | src/components/skills/index.tsx:36-41 | four hubs, each of size 15 and of a category type |
| SkillBuilder.MemberNodeFor | src/components/skills/index.tsx:45-55 | a member node has id = name = the skill, size 5, the member type and its hub as category |
| SkillBuilder.HubsFirst | src/components/skills/index.tsx:36-41 | the first four nodes are the hubs |
| SkillBuilder.MemberNodesFor | src/components/skills/index.tsx:45-55 | every member node has the member shape |
| SkillBuilder.MembersAfterHubs | src/components/skills/index.tsx:44-102 | node 4+i is the node of member i |
| SkillBuilder.BaseGraphNodes | src/components/skills/index.tsx:36-102 | exactly 4 hubs of size 15, then one node per listed skill or tool with id = name, size 5 and its hub as category |
| SkillBuilder.BaseGraphLinks | src/components/skills/index.tsx:56-107 | the link count is members + relationships; the membership links have weight 1, the relationship links weight 2 |
| SkillBuilder.Endpoints | src/components/skills/index.tsx:159-162 | two endpoints per relationship |
| SkillBuilder.EndpointsStep | src/components/skills/index.tsx:159-162 | one relationship adds one count to each endpoint |
| SkillBuilder.InitialCounts | src/components/skills/index.tsx:153-156 | every skill, tool, project and experience id starts at 1, and nothing else is present |
| SkillBuilder.AddRelationshipCounts | src/components/skills/index.tsx:159-162 | each relationship adds 1 to each endpoint, which counts from `x \|\| 1` when absent |
| SkillBuilder.AddEntryCounts | src/components/skills/index.tsx:165-182 | one index entry adds its list's length to its skill and 1 to each listed id |
| SkillBuilder.AddMentionCounts | src/components/skills/index.tsx:168-170 | the inner loop adds 1 to each listed id, once per occurrence |
| SkillBuilder.AddIndexCounts | src/components/skills/index.tsx:165-182 | a whole index adds the sum of its entries' contributions |
| SkillBuilder.CountConnections | src/components/skills/index.tsx:150-182 | the dictionary the loops fill equals the closed-form connection count at every id, and holds exactly the counted ids |
| SkillBuilder.UnmentionedBumpIsZero | src/components/skills/index.tsx:165-182 | an id no entry mentions gains nothing |
| SkillBuilder.UnrelatedCountIsOne | src/components/skills/index.tsx:150-182 | an id touched by no relationship and no index entry has count 1 |
| SkillBuilder.NodeSizeRange | src/components/skills/index.tsx:258-267 | the size is 3 + min(count, 12): between 4 and 15, monotone, and strictly increasing up to 12 |
| SkillBuilder.CompanyName | src/components/skills/index.tsx:198 | the experience label is the prefix of the entry before its first ':' |
| SkillBuilder.ProjectNodes | src/components/skills/index.tsx:185-193 | one project node per project, sized from its count |
| SkillBuilder.ExperienceNodes | src/components/skills/index.tsx:196-204 | one experience node per experience, sized from its count |
| SkillBuilder.HubLinks | src/components/skills/index.tsx:210-225 | one weight-1 hub link per id, in order |
| SkillBuilder.TargetLinks | src/components/skills/index.tsx:229-238 | one skill's links are weight 1.5, to exactly the listed targets that are also in the allowed list |
| SkillBuilder.SkillLinks | src/components/skills/index.tsx:228-255 | an index gives a weight-1.5 link from a key to exactly each listed target that is allowed |
| SkillBuilder.ResizedAll | src/components/skills/index.tsx:258-267 | the final pass resizes each node, keeping the order |
| SkillBuilder.PushHubLinks | src/components/skills/index.tsx:210-225 | the forEach appends one hub link per member node |
| SkillBuilder.PushSkillLinks | src/components/skills/index.tsx:228-255 | the nested loops append exactly the skill links |
| SkillBuilder.ResizeNodes | src/components/skills/index.tsx:258-267 | the in-place size overwrite gives exactly the resized sequence |
| SkillBuilder.AddProjectsAndExperiences | src/components/skills/index.tsx:130-207 | the two extra hubs, the project and experience nodes, and their hub links |
| SkillBuilder.CreateExtendedGraphData | src/components/skills/index.tsx:118-284 | the effect's imperative build returns exactly the extended graph |
| SkillBuilder.ConnectionCountPositive | src/components/skills/index.tsx:150-182 | every count is at least 1 |
| SkillBuilder.BaseHubsAre15 | src/components/skills/index.tsx:36-41 | every category node of the base graph has size 15 |
| SkillBuilder.ExtendedNodesHubsAre15 | src/components/skills/index.tsx:130-147 | every category node of the extended graph has size 15 before the final pass |
| SkillBuilder.ExtendedNodeSizes | src/components/skills/index.tsx:258-267 | after the final pass hubs keep 15; every other node has 3 + min(count, 12), between 4 and 15 |
| SkillBuilder.ExtendedProjectNode | src/components/skills/index.tsx:185-267 | the i-th project node has the formatted name, the project type and hub; its size is the cap-12 size, not the cap-10 size first given |
| SkillBuilder.ExtendedExperienceNode | src/components/skills/index.tsx:196-267 | the i-th experience node has the company name, the experience type and hub, and the cap-12 size |
| SkillBuilder.BaseLinkWeights | src/components/skills/index.tsx:56-107 | base links weigh 1 or 2 |
| SkillBuilder.ExtendedLinkCount | src/components/skills/index.tsx:210-255 | the extended build's link count is the sum of its five kinds |
| SkillBuilder.ExtendedSkillLinkTargets | src/components/skills/index.tsx:228-255 | no weight-1.5 link targets anything outside the project and experience lists |
| SkillBuilder.ExtendedSkillLinksPresent | src/components/skills/index.tsx:228-255 | every listed target that is a known project or experience gets its link |
| SkillBuilder.NodeIds | src/components/skills/types.ts:20-33 | the ids of the nodes, in order |
| SkillBuilder.MemberNames | src/components/skills/index.tsx:44-102 | the member names are the four lists concatenated |
| SkillBuilder.HubIdsDistinct | src/components/skills/index.tsx:36-41 | hub ids are distinct and start with 'c' |
| SkillBuilder.BaseGraphIds | src/components/skills/index.tsx:31-110 | the node ids are the hub ids followed by the listed names |
| SkillBuilder.BaseGraphIdsUnique | src/components/skills/index.tsx:31-110 | distinct names that avoid the hub prefix give distinct node ids |
| SkillBuilder.SiteBaseGraphIdsUnique | src/components/skills/data.ts:242-315 | the site's own tables give a base graph with unique ids |
| SkillView.ZoomedIn | src/components/skills/index.tsx:342-348 | min(z·1.2, 5) |
| SkillView.ZoomedOut | src/components/skills/index.tsx:351-357 | max(z/1.2, 0.5) |
| SkillView.ZoomStaysInRange | src/components/skills/index.tsx:342-357 | zooming keeps the level in [0.5, 5], in the right direction |
| SkillView.ZoomStepsUndo | src/components/skills/index.tsx:342-357 | a zoom step away from the bounds is undone by the opposite step |
| SkillView.GraphHeight | src/components/skills/index.tsx:293 | the height is max(600, 0.6·width) |
| SkillView.GraphHeightShape | src/components/skills/index.tsx:293 | the height is monotone in width: 600 up to width 1000, then 0.6·width |
| SkillView.ClickSelection | src/components/skills/index.tsx:308-324 | clicking the selected node clears the selection; any other click selects that node |
| SkillView.PanelFor | src/components/skills/index.tsx:318-323 | the panel shows the selected node and is visible iff there is one |
| SkillView.ClickToggles | src/components/skills/index.tsx:308-324 | two clicks on a node toggle it off; a click on another node moves the selection |
| SkillView.SkillsView.Valid | src/components/skills/index.tsx:308-369 | the panel shows exactly the selected node, zoom and spacing stay in range, the height is at least 600, the graph matches the toggle; kept by every handler |
| SkillView.SkillsView.constructor | src/components/skills/index.tsx:10-28 | the initial state, with the base graph stored by the mount effect |
| SkillView.SkillsView.HandleNodeClick | src/components/skills/index.tsx:308-324 | the selection toggles, the panel follows it, and nothing else changes |
| SkillView.SkillsView.HandleNodeHover | src/components/skills/index.tsx:327-330 | only the hovered node changes |
| SkillView.SkillsView.HandleCloseContextMenu | src/components/skills/index.tsx:333-339 | clears the selection and hides the panel |
| SkillView.ClickScenario | src/components/skills/index.tsx:308-339 | a first click selects and opens the panel; a second click on the same id deselects, on another id reselects; closing clears both |
| SkillView.SkillsView.HandleZoomIn | src/components/skills/index.tsx:342-348 | the zoom level becomes min(z·1.2, 5) |
| SkillView.SkillsView.HandleZoomOut | src/components/skills/index.tsx:351-357 | the zoom level becomes max(z/1.2, 0.5) |
| SkillView.SkillsView.HandleResetView | src/components/skills/index.tsx:360-369 | the zoom level becomes 1 |
| SkillView.SkillsView.SetShowProjectsExperiences | src/components/skills/index.tsx:118-123 | toggling on stores the extended graph; toggling off rebuilds the base graph from scratch |
| SkillView.SkillsView.SetShowAllLabels | src/components/skills/index.tsx:18 | only the label flag changes |
| SkillView.SkillsView.SetNodeSpacing | src/components/skills/index.tsx:20 | only the spacing changes, within the slider's 50–200 |
| SkillView.SkillsView.UpdateDimensions | src/components/skills/index.tsx:287-299 | the width is stored, with the height rule |
| SkillRender.HasOutline | src/components/skills/SkillGraph.tsx:114-118 | a white outline exactly for a selected or hovered node |
| SkillRender.ShowsLabel | src/components/skills/SkillGraph.tsx:121 | a label when all labels are on, or for a selected, hovered or generic-category node |
| SkillRender.LinkHighlighted | src/components/skills/SkillGraph.tsx:158-168 | the selected or hovered node is a resolved endpoint of the link |
| SkillRender.DrawnRadius | src/components/skills/SkillGraph.tsx:102-105 | val·1.5 when selected, else val·1.2 when hovered, else val |
| SkillRender.RadiusOrder | src/components/skills/SkillGraph.tsx:102-105 | selection wins over hover, and both enlarge the node |
| SkillRender.UnresolvedNeverHighlighted | src/components/skills/SkillGraph.tsx:158-168 | a link whose endpoints are not resolved has null ids and is never highlighted |
| SkillRender.ParticleWidth | src/components/skills/SkillGraph.tsx:192-198 | 2 exactly on links touching the selected node, else 0 |
| SkillRender.ParticlesFollowSelection | src/components/skills/SkillGraph.tsx:158-198 | particles show on exactly the links the selection highlights; none without a selection |
| SkillRender.LinkDistance | src/components/skills/SkillGraph.tsx:213-217 | 120 iff a resolved endpoint has the generic category type, else 80 |
| SkillRender.CollisionRadius | src/components/skills/SkillGraph.tsx:218 | 2·val + 30 |
| SkillRender.ChargeStrength | src/components/skills/SkillGraph.tsx:212 | the charge is minus the spacing |
| SkillRender.BuiltGraphsRender | src/components/skills/SkillGraph.tsx:183 | both builds have nodes, so the empty-list guard never hides the canvas |
| SkillRender.BaseGraphHasNoGenericCategory | src/components/skills/index.tsx:31-110 | the base build uses no node of the generic category type |
| SkillRender.ExtendedNodesHaveNoGenericCategory | src/components/skills/index.tsx:130-207 | neither does the extended build before resizing |
| SkillRender.ExtendedGraphHasNoGenericCategory | src/components/skills/index.tsx:258-267 | nor after |
| SkillRender.CategoryRulesNeverFire | src/components/skills/SkillGraph.tsx:83-121 | on the graphs the builder produces, every link distance is 80 and labels depend only on the three flags |
| SkillContextMenu.PanelRendered | src/components/skills/SkillContextMenu.tsx:13 | the panel renders only when visible and given a node |
| SkillContextMenu.AccentColor | src/components/skills/SkillContextMenu.tsx:49-60 | the accent colour per type, 'blue' by default |
| SkillContextMenu.HeaderGradient | src/components/skills/SkillContextMenu.tsx:35-46 | the header gradient per type, blue by default |
| SkillContextMenu.ShowsNoConnections | src/components/skills/SkillContextMenu.tsx:206-209 | the 'No connections available' message when all three related lists and the connected list are empty |
| SkillContextMenu.Touching | src/components/skills/SkillContextMenu.tsx:19-30 | the relationships with the node as source or target, in order |
| SkillContextMenu.TouchingCopies | src/components/skills/SkillContextMenu.tsx:19-30 | the filter keeps every copy of a touching relationship and none of the others |
| SkillContextMenu.ConnectedNodes | src/components/skills/SkillContextMenu.tsx:19-30 | the far endpoint of each touching relationship, in order, one per relationship |
| SkillContextMenu.ConnectedNodesAppend | src/components/skills/SkillContextMenu.tsx:19-30 | the connected list distributes over concatenation |
| SkillContextMenu.TouchingAppend | src/components/skills/SkillContextMenu.tsx:19-30 | so does the touching filter |
| SkillContextMenu.ConnectedMembership | src/components/skills/SkillContextMenu.tsx:19-30 | x is listed iff some relationship touching the node has x at its other end |
| SkillContextMenu.MirroredPairListedTwice | src/components/skills/SkillContextMenu.tsx:19-30 | a mirrored pair lists the neighbour twice, as duplicates are kept |
| SkillContextMenu.NoConnectionsIffNoSection | src/components/skills/SkillContextMenu.tsx:206-209 | "No connections" shows iff every related list is absent or empty and nothing is connected |
| SkillContextMenu.NoTouchingWhenAbsent | src/components/skills/SkillContextMenu.tsx:19-30 | an id no relationship names has no connections |
| SkillContextMenu.SiteHubPanelsShowNoConnections | src/components/skills/SkillContextMenu.tsx:206-209 | a hub's panel on the site's tables shows "No connections" |
| SkillContextMenu.DetailsTab | src/components/skills/SkillContextMenu.tsx:223-244 | the description is shown iff present and non-empty, else the "No details" message |
| SkillContextMenu.GradientMatchesAccent | src/components/skills/SkillContextMenu.tsx:35-60 | the header gradient is the 600–800 shade range of the accent colour |
| SkillContextMenu.ShadeRanges0 | src/components/skills/SkillContextMenu.tsx:35-46 | the blue and green gradients |
| SkillContextMenu.ShadeRanges1 | src/components/skills/SkillContextMenu.tsx:35-46 | the amber and purple gradients |
| SkillContextMenu.ShadeRanges2 | src/components/skills/SkillContextMenu.tsx:35-46 | the gray and pink gradients |
| SkillContextMenu.ShadeRanges3 | src/components/skills/SkillContextMenu.tsx:35-46 | the orange gradient |
| SkillContextMenu.BuilderTypesDefaultToBlue | src/components/skills/SkillContextMenu.tsx:35-60 | the categoryX, project and experience types fall to the blue default |
| SkillContextMenu.TagStartsLowerCase | src/components/skills/types.ts:2-17 | every tag starts with a lower-case letter |
| SkillContextMenu.BadgeText | src/components/skills/SkillContextMenu.tsx:83 | the tag with its first character upper-cased (a capital letter, since every tag starts with a lower-case letter): same length and tail |
| SkillContextMenu.LinkLabel | src/components/skills/SkillContextMenu.tsx:136 | the formatted slug has the slug's length and no '-' |
| SkillContextMenu.PanelTabs.constructor | src/components/skills/SkillContextMenu.tsx:16 | the initial tab is connections |
| SkillContextMenu.PanelTabs.Select | src/components/skills/SkillContextMenu.tsx:16 | a tab click selects that tab |
| BlogStore.NewestFirst | src/lib/mdx.ts:255 | the comparator's order: a post goes before another when its date is later |
| BlogStore.GetPostSlugs | src/lib/mdx.ts:238-240 | the slugs, same length and order as the store |
| BlogStore.FindBySlug | src/lib/mdx.ts:243 | the first post with that slug, or none iff no post has it |
| BlogStore.GetPostBySlug | src/lib/mdx.ts:242-250 | succeeds iff the slug is a post's, with a post of that slug; otherwise fails with the not-found message |
| BlogStore.LookupOwnSlug | src/lib/mdx.ts:242-250 | with distinct slugs, looking up a post's slug returns that post |
| BlogStore.NewestFirstIsOrder | src/lib/mdx.ts:254-256 | the comparator's order is total and transitive |
| BlogStore.GetAllPosts | src/lib/mdx.ts:252-257 | a permutation of the store with non-increasing dates |
| BlogStore.AllPostsMembership | src/lib/mdx.ts:252-257 | the same posts as the store |
| BlogStore.GetPostsByCategory | src/lib/mdx.ts:259-263 | the subsequence of the sorted posts whose category matches ignoring case, still newest first, with every copy of a matching post kept |
| BlogStore.CategoryCaseInsensitive | src/lib/mdx.ts:259-263 | the category's case does not matter |
| BlogStore.Categories | src/lib/mdx.ts:266 | the category of each post, in order |
| BlogStore.TagLists | src/lib/mdx.ts:271 | the tag list of each post, in order |
| BlogStore.GetAllCategories | src/lib/mdx.ts:265-268 | no duplicates, first-occurrence order, exactly the categories present |
| BlogStore.AllCategoriesMembership | src/lib/mdx.ts:265-268 | a category is listed iff some post has it |
| BlogStore.GetAllTags | src/lib/mdx.ts:270-273 | no duplicates, first-occurrence order, exactly the tags present |
| BlogStore.AllTagsMembership | src/lib/mdx.ts:270-273 | a tag is listed iff some post carries it |
| BlogStore.SliceEnd | src/lib/mdx.ts:276 | the end index `slice(0, count)` uses, negative counts included |
| BlogStore.GetRecentPosts | src/lib/mdx.ts:275-277 | a prefix of the sorted posts of the sliced length |
| BlogStore.GetRecentPostsDefault | src/lib/mdx.ts:275-277 | the first min(5, n) posts |
| BlogStore.RecentAreNewest | src/lib/mdx.ts:275-277 | no post left out is newer than a post kept |
| BlogStore.SerializeMdx | src/lib/mdx.ts:279-286 | the compiled source is the input |
| BlogStore.SitePosts | src/lib/mdx.ts:5-236 | the store holds three posts |
| BlogStore.SiteStoreFacts | src/lib/mdx.ts:5-236 | their slugs are distinct and they share one date |
| BlogStore.SiteLookup | src/lib/mdx.ts:242-250 | each of the three is found by its slug |
| BlogSearch.PostMatches | src/components/blog/BlogSearch.tsx:30-36 | the lower-cased query occurs in the title, excerpt, content, a tag or the category |
| BlogSearch.SearchResults | src/components/blog/BlogSearch.tsx:27-36 | the newest-first subsequence of posts whose title, excerpt, content, a tag or the category contains the query, ignoring case, with every copy of a matching post kept |
| BlogSearch.EmptyQueryMatchesAll | src/components/blog/BlogSearch.tsx:27-36 | the empty query would match every post |
| BlogSearch.SearchCaseInsensitive | src/components/blog/BlogSearch.tsx:27-36 | the query's case does not matter |
| BlogSearch.CategoryPostsAreFound | src/components/blog/BlogSearch.tsx:27-36 | searching a category name finds every post of that category |
| BlogSearch.ResultSummary | src/components/blog/BlogSearch.tsx:85-91 | "No results found" iff zero; otherwise "Found ", the decimal count, then " result" for one and " results" for any other count |
| BlogSearch.SearchPage.constructor | src/components/blog/BlogSearch.tsx:8-13 | the URL's query is read, the input starts with it, no results, not searching |
| BlogSearch.SearchPage.PerformSearch | src/components/blog/BlogSearch.tsx:23-44 | stores the results and ends not searching; the URL's query is untouched |
| BlogSearch.SearchPage.SetSearchQuery | src/components/blog/BlogSearch.tsx:11 | only the query changes |
| BlogSearch.SearchPage.HandleSearch | src/components/blog/BlogSearch.tsx:15-21 | a non-blank query navigates, becomes the URL's query and has its results shown; a blank one changes nothing |
| BlogSearch.SearchPage.QueryEffect | src/components/blog/BlogSearch.tsx:46-50 | on mount and whenever the URL's query changes: searches iff that query is non-empty |
| BlogSearch.BlankSubmitScenario | src/components/blog/BlogSearch.tsx:15-21 | submitting spaces neither navigates nor shows a summary |
| BlogSearch.SubmitScenario | src/components/blog/BlogSearch.tsx:15-21 | after a non-blank submit from a page opened without a query, the summary for that query's results is shown |
| BlogSearch.SearchPage.Summary | src/components/blog/BlogSearch.tsx:85-91 | the summary appears iff the current URL carries a query, and then describes the stored results |
| BlogSidebar.CategoryCount | src/components/blog/BlogSidebar.tsx:19 | the number of posts whose category is the given one |
| BlogSidebar.CategoryCountIsOccurrences | src/components/blog/BlogSidebar.tsx:17-20 | the count is the number of posts with exactly that category |
| BlogSidebar.CategoryCountIsMultiplicity | src/components/blog/BlogSidebar.tsx:17-20 | the same, as a multiset multiplicity |
| BlogSidebar.SumCountsEmpty | src/components/blog/BlogSidebar.tsx:17-20 | no posts, no counts |
| BlogSidebar.SumCountsSnoc | src/components/blog/BlogSidebar.tsx:17-20 | one more post adds one to the total iff its category is listed |
| BlogSidebar.SumCountsCoversAll | src/components/blog/BlogSidebar.tsx:13-20 | when every category is listed once, the total is the post count |
| BlogSidebar.ListedCountsSum | src/components/blog/BlogSidebar.tsx:13-20 | the counts of the listed categories sum to the number of posts |
| BlogSidebar.ListedCategoryIsUsed | src/components/blog/BlogSidebar.tsx:13-20 | every listed category has count at least 1 |
| BlogSidebar.Sidebar.constructor | src/components/blog/BlogSidebar.tsx:6-9 | all four state fields start empty |
| BlogSidebar.Sidebar.Load | src/components/blog/BlogSidebar.tsx:11-29 | the effect stores the categories, the tags, the 5 recent posts, and a count for exactly each category |
| BlogSidebar.Sidebar.DisplayedCount | src/components/blog/BlogSidebar.tsx:45 | a category missing from the counts shows 0 |
| BlogSidebar.LoadedSidebarShape | src/components/blog/BlogSidebar.tsx:13-24 | after loading every listed category shows a count of at least 1, and at most 5 recent posts are shown |
| ProjectsPage.SearchKeeps | src/components/ProjectsPage.tsx:42-49 | the lower-cased query occurs in the title, the description or a tech entry |
| ProjectsPage.CategoryKeeps | src/components/ProjectsPage.tsx:52-74 | web, ai and hardware keep projects using a tech of their set, manufacturing keeps ids containing '3d-printing', any other category keeps all |
| ProjectsPage.TagKeeps | src/components/ProjectsPage.tsx:77-81 | the exact tag is one of the project's tech entries |
| ProjectsPage.Keeps | src/components/ProjectsPage.tsx:38-84 | each filter that is set (non-empty) must pass |
| ProjectsPage.TechLists | src/components/ProjectsPage.tsx:9 | the tech list of each project, in order |
| ProjectsPage.LexLeIsOrder | src/components/ProjectsPage.tsx:11 | the default sort order is total and transitive |
| ProjectsPage.AllTags | src/components/ProjectsPage.tsx:8-12 | every tech entry once, in strictly increasing code-unit order |
| ProjectsPage.FilteredProjects | src/components/ProjectsPage.tsx:38-84 | a subsequence of the projects: exactly those passing every set filter |
| ProjectsPage.FilteredProjectsCopies | src/components/ProjectsPage.tsx:38-84 | the shown list keeps every copy of a passing record and none of a failing one |
| ProjectsPage.NoFiltersShowAll | src/components/ProjectsPage.tsx:38-84 | with no filter set, the list is the projects in order |
| ProjectsPage.UnknownCategoryKeepsAll | src/components/ProjectsPage.tsx:72 | an unknown category filters nothing |
| ProjectsPage.FeaturedProjects | src/components/ProjectsPage.tsx:94 | the subsequence of the projects with the featured flag, every copy kept |
| ProjectsPage.NoFlagNoFeatured | src/components/ProjectsPage.tsx:94 | records without the flag give an empty featured section |
| ProjectsPage.TechChips | src/components/ProjectsPage.tsx:369-376 | at most the first three tech entries |
| ProjectsPage.MoreLabel | src/components/ProjectsPage.tsx:377-381 | "+(n−3) more" iff n > 3 |
| ProjectsPage.ChipsAccountForAll | src/components/ProjectsPage.tsx:369-381 | the chips and the extra count add up to all entries |
| ProjectsPage.Page.constructor | src/components/ProjectsPage.tsx:15-19 | no filter set, all projects shown, panel closed |
| ProjectsPage.Page.Valid | src/components/ProjectsPage.tsx:38-84 | the shown list is the filtered list of the current query, category and tag; kept by every handler |
| ProjectsPage.Page.ShowsResultCount | src/components/ProjectsPage.tsx:183-186 | the result count shows while any filter is set |
| ProjectsPage.Page.ApplyFilters | src/components/ProjectsPage.tsx:38-84 | the successive filters give exactly the filtered list |
| ProjectsPage.Page.SetSearchQuery | src/components/ProjectsPage.tsx:38-49 | a new query, with the list recomputed |
| ProjectsPage.Page.ToggleCategory | src/components/ProjectsPage.tsx:208-210 | re-clicking clears the category, another click replaces it |
| ProjectsPage.Page.ToggleTag | src/components/ProjectsPage.tsx:233-235 | re-clicking clears the tag, another click replaces it |
| ProjectsPage.Page.ResetFilters | src/components/ProjectsPage.tsx:87-91 | clears all three filters, which shows every project |
| ProjectsPage.Page.ToggleFilterPanel | src/components/ProjectsPage.tsx:176 | flips the mobile panel only |
| ProjectsPage.Page.CloseFilterPanel | src/components/ProjectsPage.tsx:254-319 | the panel's close and Apply buttons close it and change nothing else |
| ProjectsPage.CategoryTwiceScenario | src/components/ProjectsPage.tsx:208-210 | clicking a category twice restores the unfiltered list |
| ProjectDetail.FindIndex | src/components/ProjectDetail.tsx:13-14 | the first position of the id, or -1 iff absent |
| ProjectDetail.PrevIndex | src/components/ProjectDetail.tsx:17 | i−1, or n−1 at or below 0 |
| ProjectDetail.NextIndex | src/components/ProjectDetail.tsx:18 | i+1, or 0 from the last |
| ProjectDetail.NeighboursAreValid | src/components/ProjectDetail.tsx:17-18 | for a known project both neighbours are valid positions |
| ProjectDetail.StepsUndo | src/components/ProjectDetail.tsx:17-18 | next undoes prev and prev undoes next |
| ProjectDetail.EndsWrap | src/components/ProjectDetail.tsx:17-18 | after the last comes the first, before the first the last |
| ProjectDetail.StepForwardIsModular | src/components/ProjectDetail.tsx:18 | k steps forward move k places modulo n |
| ProjectDetail.ModStep | src/components/ProjectDetail.tsx:18 | one more step moves the remainder on by one, wrapping from n−1 to 0 |
| ProjectDetail.PageFor | src/components/ProjectDetail.tsx:13-55 | a crash (the TypeError of reading `prevProject.id`) iff there are no projects; otherwise "Project not found" iff the id is unknown, else the project at the first position of the id, with its PrevIndex/NextIndex neighbours, all valid positions |
| ProjectDetail.UnknownIdNeighbours | src/components/ProjectDetail.tsx:13-18 | an unknown id gets neighbours n−1 and 0 |
| ProjectDetail.KeyTarget | src/components/ProjectDetail.tsx:30-41 | ArrowLeft goes to the previous project, ArrowRight to the next, other keys nowhere |
| ProjectDetail.RightThenLeft | src/components/ProjectDetail.tsx:30-41 | with distinct ids, right then left returns to the same project |
| ImageUtils.GetImageUrl | src/lib/imageUtils.ts:10-12 | the path under "/images/" |
| ImageUtils.ImageUrlInjective | src/lib/imageUtils.ts:10-12 | different paths give different URLs |
| ImageUtils.ImageParts | src/lib/imageUtils.ts:20-41 | a parse of `<dir><key>/<file>` URLs back into key and file, which rebuilds the URL |
| ImageUtils.ImagePartsRoundTrip | src/lib/imageUtils.ts:20-41 | a key without '/' and its file are recovered from the URL built from them |
| ImageUtils.ProjectImageRoundTrip | src/lib/imageUtils.ts:20-22 | `getProjectImageUrl` builds `/images/projects/<id>/<file>`: an id without '/' and its file are recovered from that URL |
| ImageUtils.BlogCoverIsJpeg | src/lib/imageUtils.ts:29-31 | every cover URL ends in ".jpg" |
| ImageUtils.CoverSlugRoundTrip | src/lib/imageUtils.ts:29-31 | a cover URL lies under "/images/blog/covers/" and the slug is recovered from between that directory and ".jpg" |
| ImageUtils.ContentImageRoundTrip | src/lib/imageUtils.ts:39-41 | `getBlogContentImageUrl` builds `/images/blog/content/<slug>/<file>`: a slug without '/' and its file are recovered from that URL |
| ImageUtils.GetAvatarUrl | src/lib/imageUtils.ts:48-50 | the URL lies under "/images/avatar/" and the file name is exactly what follows it |
| ImageUtils.GetDefaultAvatarUrl | src/lib/imageUtils.ts:48-50 | the default is "/images/avatar/default.jpg" |
| ImageUtils.DefaultBlogCover | src/lib/imageUtils.ts:58 | the fallback blog cover is the cover URL of the slug "default" |
| ImageUtils.DefaultImagesUnderImages | src/lib/imageUtils.ts:55-60 | every fallback lies under "/images/" |
| ImageUtils.DefaultImageFiles | src/lib/imageUtils.ts:55-60 | the avatar fallback is the default avatar file, the blog fallback is the cover of the slug "default", and the project cover and hero are files beside the per-id directories (no project key parses out of the cover) |
| ImageUtils.NoKeyWithoutSlash | src/lib/imageUtils.ts:20-41 | a URL with no '/' after the directory prefix does not parse as `<dir><key>/<file>` |

Helpers that stand for one source expression carry no row of their own; their behaviour is stated by the rows of the lemmas that specify them: `SkillBuilder.HubNode` (HubNodesAreHubs), `SkillBuilder.MemberNode` (MemberNodeFor), `SkillBuilder.Lookup` and `SkillBuilder.OrOne` (LookupAbsent, LookupFindsEntry, AddRelationshipCounts), `SkillBuilder.InitialIds` (InitialCounts), `BlogStore.InCategory` and `BlogStore.DefaultRecentCount` (GetPostsByCategory, GetRecentPostsDefault), `BlogSidebar.SidebarRecentCount` (Sidebar.Load), `ProjectsPage.UsesAny` (CategoryKeeps), `ProjectDetail.StepForward` (StepForwardIsModular), and the builders `ImageUtils.GetProjectImageUrl`, `ImageUtils.GetBlogCoverUrl` (BlogCoverIsJpeg, CoverSlugRoundTrip), `ImageUtils.GetBlogContentImageUrl`, `ImageUtils.DefaultProjectCover` and `ImageUtils.DefaultHero` (ProjectImageRoundTrip, ContentImageRoundTrip, DefaultImageFiles).

## Left out

- **Force simulation and canvas drawing.** The simulation's physics, the canvas calls (`arc`, text measuring, fonts, label placement) and the centre force's use of its strength are floating-point work in foreign libraries. Only the parameter choices and the drawing decisions are modelled.
- **Fullscreen, timers and DOM.** The Fullscreen handlers, the `setTimeout` reheats, the resize listener, `getBoundingClientRect` and the cursor change on hover are browser plumbing. The width is a parameter of `UpdateDimensions`.
- **The error fallbacks of the extended build and the sidebar effect.** Their `try` blocks call nothing that can throw on well-formed tables, so the `catch` branches are unreachable in the model. The model likewise drops the `Array.isArray` tests, which always hold.
- **Description prose.** The text of each node description and the bodies of the three blog posts are parameters (`SiteTables(descriptions)`, `SitePosts(..)`), not reproduced. The titles, slugs, dates, categories, tags and excerpts are reproduced.
- **Project records.** `src/components/Projects.tsx` is data only. Project records are a parameter of the projects page, with a `featured` field that those records leave unset.
- **Dates.** Post dates are (year, month, day) triples, not parsed strings.
- GetAllPosts: the comparator never returns 0, so the engine decides the order among posts with equal dates. The contract states only a permutation with non-increasing dates.
- GetAllPosts: the JavaScript function sorts a copy of the store array. Dafny sequences are values, so the promise that the store stays unchanged holds trivially and is not stated.
- **Zoom and height.** These use Dafny reals, which are exact, not IEEE doubles.
- **Text.** Case mapping and `trim` cover ASCII letters and ASCII whitespace only. There is no Unicode case folding.
- BlogSearch.SearchPage.HandleSearch: the navigation records the raw query. `encodeURIComponent` and the router's URL are not modelled.
- BlogSearch.SearchPage.PerformSearch: the model observes only the state after the search. The state in which `isSearching` is true exists only inside the call.
- ProjectDetail.KeyTarget: requires a non-empty project list. On an empty list the source's render reads `prevProject.id` of an undefined element (ProjectDetail.tsx:41) and throws a TypeError before any key is handled; `PageFor` models that render as its `Crash` view.
- SkillView.SkillsView.SetNodeSpacing: requires the slider's 50–200 range and does not model other values.
- **Rendering, routing and animations.** Markdown rendering, syntax highlighting, page layout, routing and animation components are presentation only, and so are the static content pages.
