// The static tables of the skill graph and the project-name formatter
// (src/components/skills/data.ts). The description prose of `nodeDescriptions`
// is not reproduced: the site's tables take it as a parameter.

module SkillData {
  import opened Lists
  import opened Text
  import opened SkillTypes

  /** `nodeColors`: one colour per node type. */
  function NodeColor(t: NodeType): string {
    match t
    case Management => "#3b82f6"
    case Proficiency => "#10b981"
    case OpsDesign => "#f59e0b"
    case DevTech => "#8b5cf6"
    case CategoryManagement => "#3b82f6"
    case CategoryProficiency => "#10b981"
    case CategoryOpsDesign => "#f59e0b"
    case CategoryDevTech => "#8b5cf6"
    case CategoryProject => "#ef4444"
    case CategoryExperience => "#d946ef"
    case Category => "#6b7280"
    case AiTech => "#ec4899"
    case Fabrication => "#f97316"
    case Project => "#ef4444"
    case Experience => "#d946ef"
  }

  /** The member type a hub type groups. */
  function GroupedType(hub: NodeType): Option<NodeType> {
    match hub
    case CategoryManagement => Some(Management)
    case CategoryProficiency => Some(Proficiency)
    case CategoryOpsDesign => Some(OpsDesign)
    case CategoryDevTech => Some(DevTech)
    case CategoryProject => Some(Project)
    case CategoryExperience => Some(Experience)
    case _ => None
  }

  /**
   * Every hub type groups a member type, and is drawn in that member type's
   * colour; every colour is a `#rrggbb` code.
   */
  lemma HubColorsMatchMembers()
    ensures forall t :: IsCategoryVariant(t) <==> GroupedType(t).Some?
    ensures forall t :: GroupedType(t).Some? ==>
      !IsCategoryVariant(GroupedType(t).value) && NodeColor(t) == NodeColor(GroupedType(t).value)
    ensures forall t :: |NodeColor(t)| == 7 && NodeColor(t)[0] == '#'
  {
  }

  /** `formatProjectName`: split on '-', capitalise each piece, join with single spaces. */
  function FormatProjectName(id: string): string {
    Join(CapitalizeAll(Split(id, '-')), ' ')
  }

  function CapitalizeAll(words: seq<string>): (r: seq<string>)
    ensures |r| == |words|
    ensures forall i :: 0 <= i < |words| ==> r[i] == CapitalizeFirst(words[i])
  {
    seq(|words|, i requires 0 <= i < |words| => CapitalizeFirst(words[i]))
  }

  /**
   * The same naming rule character by character: a '-' becomes a space, a
   * character at the start or right after a '-' is upper-cased, any other is kept.
   */
  function TitleCaseChar(id: string, i: nat): char
    requires i < |id|
  {
    if id[i] == '-' then ' '
    else if i == 0 || id[i - 1] == '-' then UpperChar(id[i])
    else id[i]
  }

  function DashesToTitle(id: string): (r: string)
    ensures |r| == |id|
  {
    seq(|id|, i requires 0 <= i < |id| => TitleCaseChar(id, i))
  }

  /**
   * `formatProjectName` rewrites the id in place: the result is as long as the id,
   * contains no '-', and differs from it only at dashes and word-initial letters.
   */
  lemma {:induction false} FormatProjectNameCharwise(id: string)
    ensures FormatProjectName(id) == DashesToTitle(id)
    ensures |FormatProjectName(id)| == |id| && '-' !in FormatProjectName(id)
    decreases |id|
  {
    if '-' !in id {
      SplitNoSeparator(id, '-');
      assert CapitalizeAll([id]) == [CapitalizeFirst(id)];
      WordIsTitle(id);
    } else {
      var k := IndexOf(id, '-');
      FormatAtFirstDash(id, k);
      FormatProjectNameCharwise(id[k + 1..]);
      WordIsTitle(id[..k]);
      TitleAtFirstDash(id, k);
    }
    TitleHasNoDash(id);
  }

  lemma WordIsTitle(w: string)
    requires '-' !in w
    ensures CapitalizeFirst(w) == DashesToTitle(w)
  {
    forall i | 0 <= i < |w| ensures TitleCaseChar(w, i) == CapitalizeFirst(w)[i] {
      if i > 0 {
        assert w[i - 1] in w;
      }
    }
  }

  lemma FormatAtFirstDash(id: string, k: nat)
    requires k < |id| && id[k] == '-' && '-' !in id[..k]
    ensures FormatProjectName(id) == CapitalizeFirst(id[..k]) + [' '] + FormatProjectName(id[k + 1..])
  {
    SplitAtFirst(id, '-', k);
    var rest := CapitalizeAll(Split(id[k + 1..], '-'));
    assert CapitalizeAll([id[..k]] + Split(id[k + 1..], '-')) == [CapitalizeFirst(id[..k])] + rest;
    assert ([CapitalizeFirst(id[..k])] + rest)[1..] == rest;
  }

  lemma TitleAtFirstDash(id: string, k: nat)
    requires k < |id| && id[k] == '-'
    ensures DashesToTitle(id) == DashesToTitle(id[..k]) + [' '] + DashesToTitle(id[k + 1..])
  {
    var t := id[k + 1..];
    forall i | k + 1 < i < |id| ensures TitleCaseChar(id, i) == TitleCaseChar(t, i - k - 1) {
      assert id[i] == t[i - k - 1] && id[i - 1] == t[i - k - 2];
    }
  }

  lemma TitleHasNoDash(id: string)
    ensures '-' !in DashesToTitle(id)
  {
    var r := DashesToTitle(id);
    forall i | 0 <= i < |id| ensures r[i] != '-' {
      assert r[i] == TitleCaseChar(id, i);
    }
  }

  datatype Relationship = Relationship(source: string, target: string)

  /** `nodeToProjects`/`nodeToExperience` in `Object.entries` order. */
  type SkillIndex = seq<(string, seq<string>)>

  /** Everything the graph builder reads from the data module. */
  datatype SkillTables = SkillTables(
    management: seq<string>,
    proficiencies: seq<string>,
    opsDesignTools: seq<string>,
    devTechTools: seq<string>,
    relationships: seq<Relationship>,
    descriptions: map<string, string>,
    nodeToProjects: SkillIndex,
    nodeToExperience: SkillIndex,
    projects: seq<string>,
    experiences: seq<string>)

  /** The project ids (`projects`). */
  const ProjectIds: seq<string> := [
    "ai-research-platform",
    "ai-osint-platform",
    "ai-real-estate-development",
    "3d-printing-calculator",
    "local-ai-inference-server",
    "crypto-datacenter-farm",
    "art-config",
    "playboy-magazine-cover",
    "fabrication-labs",
    "sustainable-3d-printing-challenge",
    "100mm-art-foundation"
  ]

  /** The experience entries (`experiences`). */
  const ExperienceIds: seq<string> := [
    "Config Holdings: Founder (2022-Present)",
    "Moceri Companies: VP of Real Estate Development, IT, & Marketing (2023-2024)",
    "Shapeways: Head of Software GTM (2022-2023)",
    "Shapeways: Director of Product, Strategy, and Co-Innovation (2022-2023)",
    "MakerOS: Founder & CEO (2018-2022)",
    "Manulith: Founder & CEO (2014-2018)",
    "3DPX: Co-Founder (2012-2014)"
  ]

  /** `skills.management`. */
  const ManagementSkills: seq<string> := [
    "Strategic planning",
    "Business model development",
    "Fundraising",
    "Revenue Operations",
    "GTM strategy development",
    "Team development and recruiting",
    "Vision and purpose development",
    "Product road mapping",
    "Product management",
    "IT management"
  ]

  /** `skills.proficiencies`. */
  const ProficiencySkills: seq<string> := [
    "Software and hardware development",
    "UI/UX design",
    "3D printing",
    "Machine design",
    "Multi-agent AI powered workflows",
    "Automation development",
    "Network engineering and management",
    "Sales and marketing automation",
    "Photo & video editing",
    "Local AI hosting",
    "High-end server building"
  ]

  /** `skills.opsDesignTools`. */
  const OpsDesignToolNames: seq<string> := [
    "HubSpot Enterprise",
    "Google Ads",
    "Meta Ads",
    "Photoshop",
    "Illustrator",
    "Adobe XD",
    "Figma",
    "Premier Pro",
    "ChatGPT",
    "Midjourney",
    "RunwayML",
    "G-Suite",
    "MS 365 Suite",
    "Squarespace",
    "Wordpress",
    "Wix",
    "\"Vibe Coding\""
  ]

  /** `skills.devTechTools`. */
  const DevTechToolNames: seq<string> := [
    "Ollama",
    "Open WebUI",
    "OpenAI API",
    "Anthropic API",
    "Gemini API",
    "Docker",
    "VS Code",
    "Bolt.DIY",
    "Replit",
    "Git",
    "Node.js",
    "n8n",
    "Supabase",
    "RAG pipelines",
    "Vector DB",
    "React",
    "Tailwind",
    "LoRA",
    "Obsidian.md",
    "Ubiquiti/Unifi hardware and software stack",
    "Atlassian suite",
    "Autodesk Fusion 360",
    "Netfabb",
    "3D printing slicers",
    "FDM/SLA/SLS/DLP/DMLS 3D printing",
    "Groq"
  ]

  /** Relationships from management skills to proficiencies. */
  const ManagementToProficiencyLinks: seq<Relationship> := [
    Relationship("Strategic planning", "Software and hardware development"),
    Relationship("Product management", "UI/UX design"),
    Relationship("IT management", "Network engineering and management"),
    Relationship("GTM strategy development", "Sales and marketing automation"),
    Relationship("Product road mapping", "Machine design"),
    Relationship("Vision and purpose development", "Multi-agent AI powered workflows")
  ]

  /** Relationships from management skills to tools. */
  const ManagementToToolLinks: seq<Relationship> := [
    Relationship("Revenue Operations", "HubSpot Enterprise"),
    Relationship("GTM strategy development", "Google Ads"),
    Relationship("GTM strategy development", "Meta Ads"),
    Relationship("Product management", "Atlassian suite"),
    Relationship("IT management", "MS 365 Suite")
  ]

  /** Relationships from proficiencies to tools. */
  const ProficiencyToToolLinks: seq<Relationship> := [
    Relationship("UI/UX design", "Figma"),
    Relationship("UI/UX design", "Adobe XD"),
    Relationship("Photo & video editing", "Photoshop"),
    Relationship("Photo & video editing", "Illustrator"),
    Relationship("Photo & video editing", "Premier Pro"),
    Relationship("3D printing", "Autodesk Fusion 360"),
    Relationship("3D printing", "Netfabb"),
    Relationship("3D printing", "3D printing slicers"),
    Relationship("3D printing", "FDM/SLA/SLS/DLP/DMLS 3D printing"),
    Relationship("Machine design", "Autodesk Fusion 360"),
    Relationship("Multi-agent AI powered workflows", "ChatGPT"),
    Relationship("Multi-agent AI powered workflows", "OpenAI API"),
    Relationship("Multi-agent AI powered workflows", "Anthropic API"),
    Relationship("Multi-agent AI powered workflows", "Gemini API"),
    Relationship("Multi-agent AI powered workflows", "Groq"),
    Relationship("Local AI hosting", "Ollama"),
    Relationship("Local AI hosting", "Open WebUI"),
    Relationship("Network engineering and management", "Ubiquiti/Unifi hardware and software stack"),
    Relationship("Automation development", "n8n"),
    Relationship("Software and hardware development", "VS Code"),
    Relationship("Software and hardware development", "Git"),
    Relationship("Software and hardware development", "Node.js"),
    Relationship("Software and hardware development", "React"),
    Relationship("Software and hardware development", "Docker"),
    Relationship("Software and hardware development", "Supabase"),
    Relationship("Software and hardware development", "Bolt.DIY"),
    Relationship("Software and hardware development", "Replit")
  ]

  /** Cross-category relationships. */
  const CrossCategoryLinks: seq<Relationship> := [
    Relationship("RAG pipelines", "OpenAI API"),
    Relationship("RAG pipelines", "Anthropic API"),
    Relationship("RAG pipelines", "Gemini API"),
    Relationship("RAG pipelines", "Vector DB"),
    Relationship("Obsidian.md", "\"Vibe Coding\""),
    Relationship("ChatGPT", "\"Vibe Coding\""),
    Relationship("Midjourney", "UI/UX design"),
    Relationship("RunwayML", "UI/UX design"),
    Relationship("React", "Tailwind"),
    Relationship("LoRA", "Midjourney"),
    Relationship("LoRA", "OpenAI API"),
    Relationship("Vector DB", "RAG pipelines")
  ]

  /** `nodeToProjects` entries of management skills. */
  const ManagementProjects: SkillIndex := [
    ("Strategic planning", ["ai-research-platform", "crypto-datacenter-farm", "fabrication-labs"]),
    ("Business model development", ["3d-printing-calculator", "crypto-datacenter-farm", "fabrication-labs"]),
    ("Fundraising", ["crypto-datacenter-farm", "100mm-art-foundation"]),
    ("Team development and recruiting", ["ai-research-platform", "fabrication-labs"]),
    ("Vision and purpose development", ["ai-research-platform", "100mm-art-foundation"]),
    ("Product road mapping", ["3d-printing-calculator", "ai-research-platform"]),
    ("Product management", ["3d-printing-calculator", "ai-research-platform"]),
    ("IT management", ["crypto-datacenter-farm", "local-ai-inference-server"])
  ]

  /** `nodeToProjects` entries of dev and tech tools. */
  const DevTechProjects: SkillIndex := [
    ("Docker", ["ai-research-platform", "local-ai-inference-server"]),
    ("RAG pipelines", ["ai-research-platform", "ai-osint-platform"]),
    ("Vector DB", ["ai-research-platform", "ai-osint-platform"]),
    ("LoRA", ["ai-real-estate-development"]),
    ("React", ["3d-printing-calculator", "ai-research-platform"]),
    ("Tailwind", ["3d-printing-calculator", "ai-research-platform"]),
    ("Supabase", ["3d-printing-calculator"]),
    ("OpenAI API", ["ai-research-platform", "3d-printing-calculator", "ai-osint-platform"]),
    ("Anthropic API", ["ai-research-platform", "ai-osint-platform"]),
    ("Gemini API", ["ai-research-platform"]),
    ("Ollama", ["local-ai-inference-server", "ai-research-platform"]),
    ("VS Code", ["3d-printing-calculator", "ai-research-platform", "ai-osint-platform"]),
    ("Git", ["ai-research-platform", "3d-printing-calculator"]),
    ("Node.js", ["3d-printing-calculator", "ai-research-platform"])
  ]

  /** `nodeToProjects` entries of proficiencies. */
  const ProficiencyProjects: SkillIndex := [
    ("Software and hardware development", ["ai-research-platform", "local-ai-inference-server", "crypto-datacenter-farm"]),
    ("3D printing", ["art-config", "playboy-magazine-cover", "fabrication-labs", "sustainable-3d-printing-challenge"]),
    ("Network engineering and management", ["crypto-datacenter-farm", "local-ai-inference-server"]),
    ("High-end server building", ["crypto-datacenter-farm", "local-ai-inference-server"]),
    ("Machine design", ["fabrication-labs", "sustainable-3d-printing-challenge"]),
    ("UI/UX design", ["3d-printing-calculator", "ai-research-platform"]),
    ("Multi-agent AI powered workflows", ["ai-research-platform", "ai-osint-platform"]),
    ("Automation development", ["ai-research-platform", "local-ai-inference-server"])
  ]

  /** `nodeToProjects` entries of ops and design tools. */
  const OpsDesignProjects: SkillIndex := [
    ("Midjourney", ["ai-real-estate-development", "art-config"]),
    ("Figma", ["3d-printing-calculator", "ai-research-platform"]),
    ("ChatGPT", ["ai-research-platform", "ai-osint-platform"]),
    ("Photoshop", ["playboy-magazine-cover", "art-config"]),
    ("Illustrator", ["playboy-magazine-cover", "art-config"])
  ]

  /** `nodeToExperience` entries of management skills. */
  const ManagementExperience: SkillIndex := [
    ("Strategic planning", ["Config Holdings: Founder (2022-Present)", "MakerOS: Founder & CEO (2018-2022)", "Moceri Companies: VP of Real Estate Development, IT, & Marketing (2023-2024)"]),
    ("Business model development", ["Config Holdings: Founder (2022-Present)", "MakerOS: Founder & CEO (2018-2022)", "Manulith: Founder & CEO (2014-2018)"]),
    ("Fundraising", ["MakerOS: Founder & CEO (2018-2022)", "Config Holdings: Founder (2022-Present)", "Manulith: Founder & CEO (2014-2018)"]),
    ("Revenue Operations", ["Moceri Companies: VP of Real Estate Development, IT, & Marketing (2023-2024)", "Shapeways: Head of Software GTM (2022-2023)", "MakerOS: Founder & CEO (2018-2022)"]),
    ("GTM strategy development", ["Shapeways: Head of Software GTM (2022-2023)", "MakerOS: Founder & CEO (2018-2022)", "Moceri Companies: VP of Real Estate Development, IT, & Marketing (2023-2024)"]),
    ("Team development and recruiting", ["Config Holdings: Founder (2022-Present)", "MakerOS: Founder & CEO (2018-2022)", "Moceri Companies: VP of Real Estate Development, IT, & Marketing (2023-2024)", "Manulith: Founder & CEO (2014-2018)", "Shapeways: Director of Product, Strategy, and Co-Innovation (2022-2023)"]),
    ("Vision and purpose development", ["Config Holdings: Founder (2022-Present)", "MakerOS: Founder & CEO (2018-2022)", "Manulith: Founder & CEO (2014-2018)"]),
    ("Product road mapping", ["MakerOS: Founder & CEO (2018-2022)", "Shapeways: Director of Product, Strategy, and Co-Innovation (2022-2023)"]),
    ("Product management", ["Shapeways: Director of Product, Strategy, and Co-Innovation (2022-2023)", "MakerOS: Founder & CEO (2018-2022)"]),
    ("IT management", ["Moceri Companies: VP of Real Estate Development, IT, & Marketing (2023-2024)", "Config Holdings: Founder (2022-Present)"])
  ]

  /** `nodeToExperience` entries of proficiencies. */
  const ProficiencyExperience: SkillIndex := [
    ("Software and hardware development", ["Config Holdings: Founder (2022-Present)", "MakerOS: Founder & CEO (2018-2022)", "Manulith: Founder & CEO (2014-2018)"]),
    ("UI/UX design", ["MakerOS: Founder & CEO (2018-2022)", "Config Holdings: Founder (2022-Present)"]),
    ("3D printing", ["3DPX: Co-Founder (2012-2014)", "Manulith: Founder & CEO (2014-2018)", "Config Holdings: Founder (2022-Present)"]),
    ("Machine design", ["Manulith: Founder & CEO (2014-2018)", "Config Holdings: Founder (2022-Present)"]),
    ("Multi-agent AI powered workflows", ["Config Holdings: Founder (2022-Present)"]),
    ("Automation development", ["Config Holdings: Founder (2022-Present)", "MakerOS: Founder & CEO (2018-2022)"]),
    ("Network engineering and management", ["Moceri Companies: VP of Real Estate Development, IT, & Marketing (2023-2024)", "Config Holdings: Founder (2022-Present)"]),
    ("Sales and marketing automation", ["MakerOS: Founder & CEO (2018-2022)", "Shapeways: Head of Software GTM (2022-2023)", "Moceri Companies: VP of Real Estate Development, IT, & Marketing (2023-2024)"]),
    ("Photo & video editing", ["Config Holdings: Founder (2022-Present)"]),
    ("Local AI hosting", ["Config Holdings: Founder (2022-Present)"]),
    ("High-end server building", ["Config Holdings: Founder (2022-Present)"])
  ]

  /** `nodeToExperience` entries of ops and design tools. */
  const OpsDesignExperience: SkillIndex := [
    ("HubSpot Enterprise", ["Moceri Companies: VP of Real Estate Development, IT, & Marketing (2023-2024)"]),
    ("Google Ads", ["Moceri Companies: VP of Real Estate Development, IT, & Marketing (2023-2024)", "Shapeways: Head of Software GTM (2022-2023)"]),
    ("Meta Ads", ["Moceri Companies: VP of Real Estate Development, IT, & Marketing (2023-2024)", "Shapeways: Head of Software GTM (2022-2023)"]),
    ("Figma", ["Config Holdings: Founder (2022-Present)", "MakerOS: Founder & CEO (2018-2022)"]),
    ("Adobe XD", ["MakerOS: Founder & CEO (2018-2022)"]),
    ("Photoshop", ["Config Holdings: Founder (2022-Present)"]),
    ("ChatGPT", ["Config Holdings: Founder (2022-Present)"]),
    ("Midjourney", ["Config Holdings: Founder (2022-Present)"])
  ]

  /** `nodeToExperience` entries of dev and tech tools. */
  const DevTechExperience: SkillIndex := [
    ("Docker", ["Config Holdings: Founder (2022-Present)"]),
    ("VS Code", ["Config Holdings: Founder (2022-Present)", "MakerOS: Founder & CEO (2018-2022)"]),
    ("React", ["Config Holdings: Founder (2022-Present)", "MakerOS: Founder & CEO (2018-2022)"]),
    ("Node.js", ["Config Holdings: Founder (2022-Present)", "MakerOS: Founder & CEO (2018-2022)"]),
    ("Git", ["Config Holdings: Founder (2022-Present)", "MakerOS: Founder & CEO (2018-2022)"]),
    ("OpenAI API", ["Config Holdings: Founder (2022-Present)"]),
    ("Anthropic API", ["Config Holdings: Founder (2022-Present)"]),
    ("Gemini API", ["Config Holdings: Founder (2022-Present)"])
  ]

  const Skills: seq<string> := ManagementSkills + ProficiencySkills + OpsDesignToolNames + DevTechToolNames

  const Relationships: seq<Relationship> :=
    ManagementToProficiencyLinks + ManagementToToolLinks + ProficiencyToToolLinks + CrossCategoryLinks

  const NodeToProjects: SkillIndex := ManagementProjects + DevTechProjects + ProficiencyProjects + OpsDesignProjects

  const NodeToExperience: SkillIndex :=
    ManagementExperience + ProficiencyExperience + OpsDesignExperience + DevTechExperience

  /** The keys of an index, in entry order. */
  function Keys(index: SkillIndex): (ks: seq<string>)
    ensures |ks| == |index|
    ensures forall k :: 0 <= k < |index| ==> ks[k] == index[k].0
  {
    seq(|index|, k requires 0 <= k < |index| => index[k].0)
  }

  /** An object literal read as `Record<string, string[]>`: no key is written twice. */
  predicate DistinctKeys(index: SkillIndex) {
    NoDuplicates(Keys(index))
  }

  /** The site's tables, given the description texts. */
  function SiteTables(descriptions: map<string, string>): SkillTables {
    SkillTables(ManagementSkills, ProficiencySkills, OpsDesignToolNames, DevTechToolNames,
                Relationships, descriptions, NodeToProjects, NodeToExperience, ProjectIds, ExperienceIds)
  }

  /** Every relationship endpoint names an entry of one of the four skill lists. */
  lemma RelationshipEndpointsAreSkills()
    ensures forall k :: 0 <= k < |Relationships| ==>
      Relationships[k].source in Skills && Relationships[k].target in Skills
  {
  }

  /** Every project an entry of `nodeToProjects` lists is in `projects`, and every key is a skill. */
  lemma ProjectIndexTargetsListed()
    ensures forall k :: 0 <= k < |NodeToProjects| ==> NodeToProjects[k].0 in Skills
    ensures forall k, j :: 0 <= k < |NodeToProjects| && 0 <= j < |NodeToProjects[k].1| ==>
      NodeToProjects[k].1[j] in ProjectIds
  {
    ProjectIndexKeysAreSkills();
    ProjectIndexTargetsAreKnown();
  }

  lemma ProjectIndexKeysAreSkills()
    ensures forall k :: 0 <= k < |NodeToProjects| ==> NodeToProjects[k].0 in Skills
  {
  }

  lemma ProjectIndexTargetsAreKnown()
    ensures forall k, j :: 0 <= k < |NodeToProjects| && 0 <= j < |NodeToProjects[k].1| ==>
      NodeToProjects[k].1[j] in ProjectIds
  {
  }

  /** Every experience an entry of `nodeToExperience` lists is in `experiences`, and every key is a skill. */
  lemma ExperienceIndexTargetsListed()
    ensures forall k :: 0 <= k < |NodeToExperience| ==> NodeToExperience[k].0 in Skills
    ensures forall k, j :: 0 <= k < |NodeToExperience| && 0 <= j < |NodeToExperience[k].1| ==>
      NodeToExperience[k].1[j] in ExperienceIds
  {
    ExperienceIndexKeysAreSkills();
    ExperienceIndexTargetsAreKnown();
  }

  lemma ExperienceIndexKeysAreSkills()
    ensures forall k :: 0 <= k < |NodeToExperience| ==> NodeToExperience[k].0 in Skills
  {
  }

  lemma ExperienceIndexTargetsAreKnown()
    ensures forall k, j :: 0 <= k < |NodeToExperience| && 0 <= j < |NodeToExperience[k].1| ==>
      NodeToExperience[k].1[j] in ExperienceIds
  {
  }

  lemma KeysAppend(a: SkillIndex, b: SkillIndex)
    ensures Keys(a + b) == Keys(a) + Keys(b)
  {
  }

  /** Four duplicate-free key lists that are pairwise disjoint concatenate without duplicates. */
  lemma FourDistinct(a: seq<string>, b: seq<string>, c: seq<string>, d: seq<string>)
    requires NoDuplicates(a) && NoDuplicates(b) && NoDuplicates(c) && NoDuplicates(d)
    requires forall x :: x in a ==> x !in b && x !in c && x !in d
    requires forall x :: x in b ==> x !in c && x !in d
    requires forall x :: x in c ==> x !in d
    ensures NoDuplicates(a + b + c + d)
  {
    NoDuplicatesAppend(a, b);
    NoDuplicatesAppend(a + b, c);
    NoDuplicatesAppend(a + b + c, d);
  }

  lemma ProjectPiecesDistinct()
    ensures DistinctKeys(ManagementProjects) && DistinctKeys(DevTechProjects)
    ensures DistinctKeys(ProficiencyProjects) && DistinctKeys(OpsDesignProjects)
  {
  }

  lemma ExperiencePiecesDistinct()
    ensures DistinctKeys(ManagementExperience) && DistinctKeys(ProficiencyExperience)
    ensures DistinctKeys(OpsDesignExperience) && DistinctKeys(DevTechExperience)
  {
    PeopleExperienceDistinct();
    ToolExperienceDistinct();
  }

  lemma PeopleExperienceDistinct()
    ensures DistinctKeys(ManagementExperience) && DistinctKeys(ProficiencyExperience)
  {
  }

  lemma ToolExperienceDistinct()
    ensures DistinctKeys(OpsDesignExperience) && DistinctKeys(DevTechExperience)
  {
  }

  /** Each piece of an index lists skills of its own group. */
  lemma PiecesListGroupSkills()
    ensures forall x :: x in Keys(ManagementProjects) ==> x in ManagementSkills
    ensures forall x :: x in Keys(DevTechProjects) ==> x in DevTechToolNames
    ensures forall x :: x in Keys(ProficiencyProjects) ==> x in ProficiencySkills
    ensures forall x :: x in Keys(OpsDesignProjects) ==> x in OpsDesignToolNames
    ensures forall x :: x in Keys(ManagementExperience) ==> x in ManagementSkills
    ensures forall x :: x in Keys(ProficiencyExperience) ==> x in ProficiencySkills
    ensures forall x :: x in Keys(OpsDesignExperience) ==> x in OpsDesignToolNames
    ensures forall x :: x in Keys(DevTechExperience) ==> x in DevTechToolNames
  {
  }

  /** Both site indexes name each skill at most once, as the object literals must. */
  lemma SiteIndexKeysDistinct()
    ensures DistinctKeys(NodeToProjects) && DistinctKeys(NodeToExperience)
  {
    ProjectPiecesDistinct();
    ExperiencePiecesDistinct();
    PiecesListGroupSkills();
    SkillListsDisjoint();
    KeysAppend(ManagementProjects, DevTechProjects);
    KeysAppend(ManagementProjects + DevTechProjects, ProficiencyProjects);
    KeysAppend(ManagementProjects + DevTechProjects + ProficiencyProjects, OpsDesignProjects);
    FourDistinct(Keys(ManagementProjects), Keys(DevTechProjects), Keys(ProficiencyProjects), Keys(OpsDesignProjects));
    KeysAppend(ManagementExperience, ProficiencyExperience);
    KeysAppend(ManagementExperience + ProficiencyExperience, OpsDesignExperience);
    KeysAppend(ManagementExperience + ProficiencyExperience + OpsDesignExperience, DevTechExperience);
    FourDistinct(Keys(ManagementExperience), Keys(ProficiencyExperience), Keys(OpsDesignExperience), Keys(DevTechExperience));
  }

  /** Each skill list names each entry once. */
  lemma SkillListsDistinct()
    ensures NoDuplicates(ManagementSkills) && NoDuplicates(ProficiencySkills)
    ensures NoDuplicates(OpsDesignToolNames) && NoDuplicates(DevTechToolNames)
  {
    ShortListsDistinct();
    DevTechNamesDistinct();
  }

  lemma ShortListsDistinct()
    ensures NoDuplicates(ManagementSkills) && NoDuplicates(ProficiencySkills) && NoDuplicates(OpsDesignToolNames)
  {
  }

  lemma DevTechNamesDistinct()
    ensures NoDuplicates(DevTechToolNames)
  {
  }

  lemma ManagementProficiencyDisjoint()
    ensures forall x :: x in ManagementSkills ==> x !in ProficiencySkills
  {
  }

  lemma ManagementOpsDesignDisjoint()
    ensures forall x :: x in ManagementSkills ==> x !in OpsDesignToolNames
  {
  }

  lemma ManagementDevTechDisjoint()
    ensures forall x :: x in ManagementSkills ==> x !in DevTechToolNames
  {
    assert forall i :: 0 <= i < 5 ==> ManagementSkills[i] !in DevTechToolNames;
    assert forall i :: 5 <= i < |ManagementSkills| ==> ManagementSkills[i] !in DevTechToolNames;
  }

  lemma ProficiencyOpsDesignDisjoint()
    ensures forall x :: x in ProficiencySkills ==> x !in OpsDesignToolNames
  {
  }

  lemma ProficiencyDevTechDisjoint()
    ensures forall x :: x in ProficiencySkills ==> x !in DevTechToolNames
  {
    assert forall i :: 0 <= i < 5 ==> ProficiencySkills[i] !in DevTechToolNames;
    assert forall i :: 5 <= i < |ProficiencySkills| ==> ProficiencySkills[i] !in DevTechToolNames;
  }

  lemma OpsDesignDevTechDisjoint()
    ensures forall x :: x in OpsDesignToolNames ==> x !in DevTechToolNames
  {
    OpsDesignHeadAvoidsDevTech();
    OpsDesignTailAvoidsDevTech();
    forall x | x in OpsDesignToolNames ensures x !in DevTechToolNames {
      var i :| 0 <= i < |OpsDesignToolNames| && OpsDesignToolNames[i] == x;
    }
  }

  lemma OpsDesignHeadAvoidsDevTech()
    ensures forall i :: 0 <= i < 9 ==> OpsDesignToolNames[i] !in DevTechToolNames
  {
  }

  lemma OpsDesignTailAvoidsDevTech()
    ensures forall i :: 9 <= i < |OpsDesignToolNames| ==> OpsDesignToolNames[i] !in DevTechToolNames
  {
  }

  /** The four skill lists share no entry. */
  lemma SkillListsDisjoint()
    ensures forall x :: x in ManagementSkills ==> x !in ProficiencySkills && x !in OpsDesignToolNames && x !in DevTechToolNames
    ensures forall x :: x in ProficiencySkills ==> x !in OpsDesignToolNames && x !in DevTechToolNames
    ensures forall x :: x in OpsDesignToolNames ==> x !in DevTechToolNames
  {
    ManagementProficiencyDisjoint();
    ManagementOpsDesignDisjoint();
    ManagementDevTechDisjoint();
    ProficiencyOpsDesignDisjoint();
    ProficiencyDevTechDisjoint();
    OpsDesignDevTechDisjoint();
  }

  lemma ManagementAvoidsHubPrefix()
    ensures forall x :: x in ManagementSkills ==> |x| > 0 && x[0] != 'c'
  {
  }

  lemma ProficiencyAvoidsHubPrefix()
    ensures forall x :: x in ProficiencySkills ==> |x| > 0 && x[0] != 'c'
  {
  }

  lemma OpsDesignAvoidsHubPrefix()
    ensures forall x :: x in OpsDesignToolNames ==> |x| > 0 && x[0] != 'c'
  {
  }

  lemma DevTechAvoidsHubPrefix()
    ensures forall x :: x in DevTechToolNames ==> |x| > 0 && x[0] != 'c'
  {
  }

  /** No skill name starts with a lower-case 'c', so none can be a "cat-" hub id. */
  lemma SkillNamesAvoidHubPrefix()
    ensures forall x :: x in Skills ==> |x| > 0 && x[0] != 'c'
  {
    ManagementAvoidsHubPrefix();
    ProficiencyAvoidsHubPrefix();
    OpsDesignAvoidsHubPrefix();
    DevTechAvoidsHubPrefix();
  }

  /** The table sizes: 64 skills in four lists, 50 relationships, 11 projects, 7 experiences. */
  lemma TableSizes()
    ensures |ManagementSkills| == 10 && |ProficiencySkills| == 11
    ensures |OpsDesignToolNames| == 17 && |DevTechToolNames| == 26 && |Skills| == 64
    ensures |Relationships| == 50 && |ProjectIds| == 11 && |ExperienceIds| == 7
    ensures |NodeToProjects| == 35 && |NodeToExperience| == 37
  {
  }

  /**
   * The relationship list is not de-duplicated: a pair of skills can be linked
   * in both directions.
   */
  lemma RelationshipsKeepMirroredPair()
    ensures Relationship("RAG pipelines", "Vector DB") in Relationships
    ensures Relationship("Vector DB", "RAG pipelines") in Relationships
  {
    assert Relationships[41] == Relationship("RAG pipelines", "Vector DB");
    assert Relationships[49] == Relationship("Vector DB", "RAG pipelines");
  }
}
