/** The copy-to-clipboard prompts of lib/prompts/index.ts: plain strings
    built from the project state, for an assistant to write CONVENTIONS.md,
    SCHEMA.md, the project skeleton or one feature. */
module Prompts {
  import opened Wrappers
  import opened Text
  import opened Lines
  import opened Project
  import opened TechStacks
  import opened ConventionsMd
  import opened FeaturesMd
  import opened ArchitectureMd

  const INTRO := "I'm setting up a project framework for AI-assisted development."
  const CONVENTIONS_ASK := "I need you to write a CONVENTIONS.md file covering code patterns and standards for this project. "
    + "Format it as markdown with clear sections. Keep it under 1500 words."
  const CONVENTIONS_COVER := "Cover:\n- Component organization\n- Data fetching patterns\n- Error handling\n"
    + "- Naming conventions for files, components, database tables, API routes\n"
    + "- Any other conventions relevant to this specific tech stack\n\n"
    + "The audience is an AI assistant that will read this file at the start of every coding session. "
    + "Write it so that an AI can follow these conventions without ambiguity."
  const SCHEMA_ASK := "Please write a SCHEMA.md file containing:\n"
    + "1. A complete database schema with all tables, columns, types, and relationships\n"
    + "2. Any indexes or constraints that would be important\n"
    + "3. Notes on any RLS (Row Level Security) policies if applicable\n\n"
    + "Format as markdown. Use SQL code blocks for the actual schema definitions. "
    + "Include explanatory notes for complex relationships."
  const SKELETON_INTRO := "I'm setting up a new project and need you to create the initial "
    + "file/folder structure (skeleton deployment)."
  const SKELETON_ASK := "Please create:\n1. The complete folder structure with placeholder files\n"
    + "2. Configuration files (package.json, tsconfig, etc.) appropriate for the tech stack\n"
    + "3. A basic layout/shell that the feature work can build upon\n"
    + "4. Any authentication scaffolding if auth was selected\n"
    + "5. Database connection setup if applicable\n\n"
    + "Do NOT implement any features — just create the skeleton that features will be built into. "
    + "Each file should have a clear comment indicating what will go there.\n\n"
    + "After creating the skeleton, verify:\n- [ ] The project builds and runs without errors\n"
    + "- [ ] All configuration files are correct\n- [ ] The folder structure matches the architecture layers\n"
    + "- [ ] A basic \"hello world\" page renders"
  const NO_LAYERS_LINE := "- Standard web application layers"
  const NO_FEATURES_LINE := "- No features defined yet"
  const FEATURE_OPEN := "Read PROJECT.md, then read docs/CONVENTIONS.md."
  const FEATURE_ASK := "Please implement this feature following all conventions in CONVENTIONS.md. "
    + "After completion, review your work against each business rule listed above."

  /** A text that opens with `head`. */
  function Opening(head: string, rest: string): (r: string)
    ensures StartsWith(r, head) && |r| == |head| + |rest|
  {
    var r := head + rest;
    assert r[..|head|] == head;
    r
  }

  /** `state.identity.name || "My Project"` */
  function ProjectName(s: ProjectState): (r: string)
    ensures r != ""
    ensures s.identity.name != "" ==> r == s.identity.name
  {
    OrElse(s.identity.name, "My Project")
  }

  // ---------------------------------------------------------------------
  // techStackSummary

  /** `if (value) parts.push(lookup(category, value))` */
  function Label(categoryId: string, value: string, lookup: (string, string) -> string): (r: seq<string>)
    ensures value == "" <==> r == []
    ensures |r| <= 1
  {
    if value == "" then [] else [lookup(categoryId, value)]
  }

  /** The labels `techStackSummary` joins, for any label lookup. */
  function TechPartsBy(ts: TechStack, lookup: (string, string) -> string): (r: seq<string>)
    ensures |r| <= 5
  {
    Label("framework", ts.framework, lookup)
    + (Label("styling", ts.styling, lookup)
    + (Label("database", ts.database, lookup)
    + (Label("auth", ts.auth, lookup)
    + Label("componentLibrary", ts.componentLibrary, lookup))))
  }

  /** Reference: one label per non-empty field of the architecture
      overview's field table from position `i` on, in table order, skipping
      the deployment field (position 4). */
  function FieldLabelsFrom(ts: TechStack, i: nat, lookup: (string, string) -> string): (r: seq<string>)
    requires i <= 6
    decreases 6 - i
  {
    if i == 6 then []
    else if i == 4 then FieldLabelsFrom(ts, i + 1, lookup)
    else Label(Field(i).categoryId, FieldValue(ts, i), lookup) + FieldLabelsFrom(ts, i + 1, lookup)
  }

  /** The summary lists the labels of the non-empty fields of the field
      table in table order, all but the deployment target. */
  lemma TechPartsFollowFields(ts: TechStack, lookup: (string, string) -> string)
    ensures TechPartsBy(ts, lookup) == FieldLabelsFrom(ts, 0, lookup)
  {
    var l5 := Label("componentLibrary", ts.componentLibrary, lookup);
    assert FieldLabelsFrom(ts, 5, lookup) == l5 + [];
    assert FieldLabelsFrom(ts, 4, lookup) == l5 + [];
    var l3 := Label("auth", ts.auth, lookup) + l5;
    assert FieldLabelsFrom(ts, 3, lookup) == l3;
    var l2 := Label("database", ts.database, lookup) + l3;
    assert FieldLabelsFrom(ts, 2, lookup) == l2;
    var l1 := Label("styling", ts.styling, lookup) + l2;
    assert FieldLabelsFrom(ts, 1, lookup) == l1;
  }

  /** The deployment target never changes the summary. */
  lemma DeploymentNotSummarised(ts: TechStack, d: string, lookup: (string, string) -> string)
    ensures TechPartsBy(ts.(deployment := d), lookup) == TechPartsBy(ts, lookup)
  {
  }

  /** `techStackSummary(state)` */
  function TechSummary(ts: TechStack): string {
    Join(TechPartsBy(ts, GetTechLabel), ", ")
  }

  // ---------------------------------------------------------------------
  // conventionSummary

  /** `- ${q.question}: ${opt.label}` */
  function ChoiceLine(x: Resolved): (r: string)
    ensures |r| >= |x.caption|
    ensures StartsWith(r, "- " + x.question + ": ") && r[|r| - |x.caption|..] == x.caption
  {
    var p := "- " + x.question + ": ";
    var r := p + x.caption;
    assert r[..|p|] == p;
    r
  }

  /** The lines of `conventionSummary`: one per decision whose question
      and option both resolve, in decision order. */
  function ChoiceLines(all: seq<ConventionQuestion>, ds: seq<Decision>): (r: seq<string>)
    ensures |r| == |ResolveAll(all, ds)|
    ensures forall i | 0 <= i < |r| :: r[i] == ChoiceLine(ResolveAll(all, ds)[i])
  {
    var rs := ResolveAll(all, ds);
    seq(|rs|, i requires 0 <= i < |rs| => ChoiceLine(rs[i]))
  }

  /** A decision that does not resolve adds no line; one that resolves adds
      its line at the end. */
  lemma ChoiceLinesAppendOne(all: seq<ConventionQuestion>, ds: seq<Decision>, d: Decision)
    ensures Resolve(all, d).None? ==> ChoiceLines(all, ds + [d]) == ChoiceLines(all, ds)
    ensures Resolve(all, d).Some? ==>
      ChoiceLines(all, ds + [d]) == ChoiceLines(all, ds) + [ChoiceLine(Resolve(all, d).value)]
  {
    ResolveAllAppend(all, ds, [d]);
    ResolveAllSingle(all, d);
  }

  /** `conventionSummary(state)` over `getAllConventionQuestions()`. */
  function ConventionSummary(all: seq<ConventionQuestion>, conv: Conventions): string {
    Join(ChoiceLines(all, conv.decisions), "\n")
  }

  /** A join of lines is empty only when there are none or the one line is. */
  lemma JoinEmpty(parts: seq<string>, sep: string)
    requires forall i | 0 <= i < |parts| :: parts[i] != ""
    ensures Join(parts, sep) == "" <==> parts == []
  {
    if parts != [] {
      JoinStartsWithFirst(parts, sep);
    }
  }

  lemma ChoiceLinesNonEmpty(all: seq<ConventionQuestion>, ds: seq<Decision>)
    ensures forall i | 0 <= i < |ChoiceLines(all, ds)| :: ChoiceLines(all, ds)[i] != ""
  {
  }

  /** The decisions block of the conventions prompt appears iff some
      decision resolves. */
  function DecisionsBlock(all: seq<ConventionQuestion>, conv: Conventions): (r: string)
    ensures r == "" <==> ResolveAll(all, conv.decisions) == []
  {
    var summary := ConventionSummary(all, conv);
    ChoiceLinesNonEmpty(all, conv.decisions);
    JoinEmpty(ChoiceLines(all, conv.decisions), "\n");
    if summary != "" then
      "I've already made these convention decisions:\n" + summary + "\n\nExpand on these choices and"
    else ""
  }

  /** `l.name.toLowerCase()` of every enabled layer. */
  function LowerNames(ls: seq<Layer>): (r: seq<string>)
    ensures |r| == |ls| && forall i | 0 <= i < |ls| :: r[i] == Lower(ls[i].name)
  {
    seq(|ls|, i requires 0 <= i < |ls| => Lower(ls[i].name))
  }

  /** `generateConventionsPrompt(state)`. The decisions block runs into
      "Cover:" with no space between, as the source writes it. */
  function ConventionsPrompt(s: ProjectState, all: seq<ConventionQuestion>): string {
    ConventionsPromptWith(s, all, TechSummary(s.identity.techStack))
  }

  /** The conventions prompt around a given tech-stack summary. */
  function ConventionsPromptWith(s: ProjectState, all: seq<ConventionQuestion>, tech: string): (r: string)
    ensures StartsWith(r, PromptHead(INTRO, s, tech))
  {
    Opening(PromptHead(INTRO, s, tech), ConventionsRest(s, all))
  }

  /** What follows the tech-stack line of the conventions prompt. */
  function ConventionsRest(s: ProjectState, all: seq<ConventionQuestion>): string {
      "\nArchitecture: " + OrElse(s.architecture.appType, "Web application")
      + " with " + Join(LowerNames(EnabledLayers(s.architecture.layers)), ", ")
      + "\n\n" + CONVENTIONS_ASK + "\n\n"
      + DecisionsBlock(all, s.conventions) + CONVENTIONS_COVER
  }

  // ---------------------------------------------------------------------
  // generateSchemaPrompt

  /** `tables.filter((t) => t.name)` */
  function NamedTables(ts: seq<Table>): (r: seq<Table>)
    ensures |r| <= |ts|
    ensures forall i | 0 <= i < |r| :: r[i] in ts && r[i].name != ""
  {
    if ts == [] then []
    else if ts[0].name != "" then [ts[0]] + NamedTables(ts[1..])
    else NamedTables(ts[1..])
  }

  /** Every table with a name is kept. */
  lemma {:induction false} NamedTablesKeeps(ts: seq<Table>, t: Table)
    requires t in ts && t.name != ""
    ensures t in NamedTables(ts)
  {
    if ts[0] != t {
      NamedTablesKeeps(ts[1..], t);
    }
  }

  /** The filter keeps the stored order. */
  lemma {:induction false} NamedTablesAppend(a: seq<Table>, b: seq<Table>)
    ensures NamedTables(a + b) == NamedTables(a) + NamedTables(b)
  {
    if a == [] {
      assert a + b == b;
    } else {
      assert (a + b)[0] == a[0] && (a + b)[1..] == a[1..] + b;
      NamedTablesAppend(a[1..], b);
    }
  }

  /** One sketched table: `- name`, then `: description` and the columns on
      an indented line, each only when not empty. */
  function TableItem(t: Table): (r: string)
    ensures |r| >= |t.columns|
    ensures StartsWith(r, "- " + t.name)
    ensures t.description == "" && t.columns == "" ==> r == "- " + t.name
    ensures t.description != "" ==> StartsWith(r, "- " + t.name + ": " + t.description)
    ensures t.columns != "" ==> r[|r| - |t.columns|..] == t.columns
  {
    var head := "- " + t.name;
    var withDesc := if t.description != "" then head + ": " + t.description else head;
    var r := if t.columns != "" then withDesc + "\n  Columns: " + t.columns else withDesc;
    assert r[..|withDesc|] == withDesc;
    assert withDesc[..|head|] == head;
    r
  }

  function TableItems(ts: seq<Table>): (r: seq<string>)
    ensures |r| == |NamedTables(ts)|
    ensures forall i | 0 <= i < |r| :: r[i] == TableItem(NamedTables(ts)[i]) && r[i] != ""
  {
    var named := NamedTables(ts);
    seq(|named|, i requires 0 <= i < |named| => TableItem(named[i]))
  }

  /** The sketched-tables block: present iff some table has a name. */
  function SketchBlock(ts: seq<Table>): (r: string)
    ensures r == "" <==> NamedTables(ts) == []
  {
    var items := Join(TableItems(ts), "\n");
    JoinEmpty(TableItems(ts), "\n");
    if items != "" then "\nI've sketched out these tables:\n" + items + "\n" else ""
  }

  /** `${description ? "Here's what I need the database to do:\n" + description + "\n" : ""}` */
  function NeedsBlock(description: string): (r: string)
    ensures r == "" <==> description == ""
  {
    if description != "" then "Here's what I need the database to do:\n" + description + "\n" else ""
  }

  /** The head every state prompt but the feature one shares. */
  function PromptHead(intro: string, s: ProjectState, tech: string): string {
    intro + "\n\nProject: " + ProjectName(s) + "\nTech Stack: " + tech
  }

  /** `generateSchemaPrompt(state)`: after the head, the description block
      and the sketched-tables block, then the request. */
  function SchemaPrompt(s: ProjectState): string {
    SchemaPromptWith(s, TechSummary(s.identity.techStack))
  }

  /** The schema prompt around a given tech-stack summary. */
  function SchemaPromptWith(s: ProjectState, tech: string): (r: string)
    ensures StartsWith(r, PromptHead(INTRO, s, tech))
  {
    Opening(PromptHead(INTRO, s, tech), SchemaRest(s))
  }

  /** What follows the head of the schema prompt. */
  function SchemaRest(s: ProjectState): string {
      "\n\n" + NeedsBlock(s.database.plainEnglishDescription)
      + SketchBlock(s.database.tables) + "\n" + SCHEMA_ASK
  }

  // ---------------------------------------------------------------------
  // generateSkeletonPrompt

  /** `- ${name}` and `: ${notes}` when there are notes. */
  function LayerItem(l: Layer): (r: string)
    ensures StartsWith(r, "- " + l.name)
    ensures l.notes == "" <==> r == "- " + l.name
  {
    var head := "- " + l.name;
    var r := if l.notes != "" then head + ": " + l.notes else head;
    assert r[..|head|] == head;
    r
  }

  function LayerItems(ls: seq<Layer>): (r: seq<string>)
    ensures |r| == |EnabledLayers(ls)|
    ensures forall i | 0 <= i < |r| :: r[i] == LayerItem(EnabledLayers(ls)[i]) && r[i] != ""
  {
    var on := EnabledLayers(ls);
    seq(|on|, i requires 0 <= i < |on| => LayerItem(on[i]))
  }

  /** `- ${f.name}: ${f.description || "No description"}` */
  function FeatureItem(f: Feature): (r: string)
    ensures StartsWith(r, "- " + f.name + ": ")
  {
    var head := "- " + f.name + ": ";
    var r := head + OrElse(f.description, "No description");
    assert r[..|head|] == head;
    r
  }

  function FeatureItems(fs: seq<Feature>): (r: seq<string>)
    ensures |r| == |fs|
    ensures forall i | 0 <= i < |r| :: r[i] == FeatureItem(fs[i]) && r[i] != ""
  {
    seq(|fs|, i requires 0 <= i < |fs| => FeatureItem(fs[i]))
  }

  /** The layer list of the skeleton prompt: the fallback line when no
      layer is enabled, otherwise the enabled layers' lines, starting with
      the first one's. (A lone layer named "Standard web application layers"
      without notes reads exactly like the fallback.) */
  function LayerList(ls: seq<Layer>): (r: string)
    ensures EnabledLayers(ls) == [] ==> r == NO_LAYERS_LINE
    ensures EnabledLayers(ls) != [] ==> StartsWith(r, LayerItem(EnabledLayers(ls)[0]))
  {
    var items := LayerItems(ls);
    JoinEmpty(items, "\n");
    if items != [] then
      JoinStartsWithFirst(items, "\n");
      Join(items, "\n")
    else NO_LAYERS_LINE
  }

  /** The feature list of the skeleton prompt, or its fallback line. */
  function FeatureList(fs: seq<Feature>): (r: string)
    ensures fs == [] <==> r == NO_FEATURES_LINE
  {
    FeatureJoin(fs);
    OrElse(Join(FeatureItems(fs), "\n"), NO_FEATURES_LINE)
  }

  /** Joined feature lines are empty only without features, and never read
      as the fallback line, which has no ": ". */
  lemma FeatureJoin(fs: seq<Feature>)
    ensures var j := Join(FeatureItems(fs), "\n");
      (j == "" <==> fs == []) && j != NO_FEATURES_LINE
  {
    var items := FeatureItems(fs);
    JoinEmpty(items, "\n");
    if fs != [] {
      var j := Join(items, "\n");
      JoinStartsWithFirst(items, "\n");
      var k := |fs[0].name| + 2;
      assert j[..|items[0]|] == items[0];
      assert items[0][..k + 2] == "- " + fs[0].name + ": ";
      assert j[k] == ':';
      if j == NO_FEATURES_LINE {
        NoColonInFallback(k);
      }
    }
  }

  lemma NoColonInFallback(k: nat)
    requires k < |NO_FEATURES_LINE|
    ensures NO_FEATURES_LINE[k] != ':'
  {
  }

  /** `generateSkeletonPrompt(state)` */
  function SkeletonPrompt(s: ProjectState): string {
    SkeletonPromptWith(s, TechSummary(s.identity.techStack))
  }

  /** The skeleton prompt around a given tech-stack summary. */
  function SkeletonPromptWith(s: ProjectState, tech: string): (r: string)
    ensures StartsWith(r, PromptHead(SKELETON_INTRO, s, tech))
  {
    Opening(PromptHead(SKELETON_INTRO, s, tech), SkeletonRest(s))
  }

  /** What follows the head of the skeleton prompt. */
  function SkeletonRest(s: ProjectState): string {
      "\nApp Type: " + OrElse(s.architecture.appType, "web-app")
      + "\n\nArchitecture layers:\n" + LayerList(s.architecture.layers)
      + "\n\nFeatures planned:\n" + FeatureList(s.features)
      + "\n\n" + SKELETON_ASK
  }

  // ---------------------------------------------------------------------
  // generateFeaturePrompt

  /** `features.find((f) => f.id === featureId)` */
  function FindFeature(fs: seq<Feature>, id: string): (r: Option<Feature>)
    ensures r.Some? ==> r.value in fs && r.value.id == id
    ensures r.None? <==> forall i | 0 <= i < |fs| :: fs[i].id != id
  {
    if fs == [] then None
    else if fs[0].id == id then Some(fs[0])
    else FindFeature(fs[1..], id)
  }

  /** `- ${t.name}` and the Done-when line when the definition of done is set. */
  function TaskItem(t: Task): (r: string)
    ensures StartsWith(r, "- " + t.name)
    ensures t.definitionOfDone == "" <==> r == "- " + t.name
  {
    var head := "- " + t.name;
    var r := if t.definitionOfDone != "" then head + "\n  Done when: " + t.definitionOfDone else head;
    assert r[..|head|] == head;
    r
  }

  /** The task lines: one per task that lists the feature, in task order. */
  function TaskItems(ts: seq<Task>, id: string): (r: seq<string>)
    ensures |r| == |TasksOf(ts, id)|
    ensures forall i | 0 <= i < |r| :: r[i] == TaskItem(TasksOf(ts, id)[i]) && r[i] != ""
  {
    var mine := TasksOf(ts, id);
    seq(|mine|, i requires 0 <= i < |mine| => TaskItem(mine[i]))
  }

  /** The business-rule lines: the rules that are not blank, as bullets. */
  function RuleItems(rules: seq<string>): (r: seq<string>)
    ensures |r| == |KeepNonBlank(rules)| && NoEmptyLine(r)
    ensures forall i | 0 <= i < |r| :: r[i] == "- " + KeepNonBlank(rules)[i]
  {
    Bullets(KeepNonBlank(rules))
  }

  /** The Business Rules block appears iff some rule is not blank. */
  function RulesBlock(rules: seq<string>): (r: string)
    ensures r == "" <==> KeepNonBlank(rules) == []
  {
    var items := RuleItems(rules);
    JoinEmpty(items, "\n");
    var j := Join(items, "\n");
    if j != "" then "Business Rules:\n" + j + "\n" else ""
  }

  /** The Related Tables line appears iff there are related tables. */
  function TablesLine(tables: seq<string>): (r: string)
    ensures r == "" <==> tables == []
  {
    if |tables| > 0 then "Related Tables: " + Join(tables, ", ") + "\n" else ""
  }

  /** The task block appears iff some task lists the feature. */
  function TasksBlock(ts: seq<Task>, id: string): (r: string)
    ensures r == "" <==> TasksOf(ts, id) == []
  {
    var items := TaskItems(ts, id);
    JoinEmpty(items, "\n");
    var j := Join(items, "\n");
    if j != "" then "Tasks for this feature:\n" + j + "\n" else ""
  }

  /** The prompt for one found feature. */
  function FeatureBrief(f: Feature, ts: seq<Task>): (r: string)
    ensures StartsWith(r, FEATURE_OPEN) && r != ""
  {
    Opening(FEATURE_OPEN, BriefRest(f, ts))
  }

  /** What follows the opening line of a feature prompt. */
  function BriefRest(f: Feature, ts: seq<Task>): string {
      "\n\nI'm implementing the \"" + f.name + "\" feature.\n\nDescription: "
      + OrElse(f.description, "No description provided.") + "\n\n"
      + RulesBlock(f.businessRules) + TablesLine(f.relatedTables) + "\n"
      + TasksBlock(ts, f.id) + "\n" + FEATURE_ASK
  }

  /** `generateFeaturePrompt(state, featureId)`: the empty string when no
      feature has the id, otherwise the prompt for the first one that has. */
  function FeaturePrompt(s: ProjectState, featureId: string): (r: string)
    ensures r == "" <==> forall i | 0 <= i < |s.features| :: s.features[i].id != featureId
    ensures r != "" ==> StartsWith(r, FEATURE_OPEN)
  {
    match FindFeature(s.features, featureId)
    case None => ""
    case Some(f) => FeatureBrief(f, s.tasks)
  }

  /** The prompt of a found feature lists exactly the tasks that list the
      feature: a task is in the task block iff its `featureIds` holds the id. */
  lemma FeatureTasksExactly(ts: seq<Task>, id: string, t: Task)
    requires t in ts
    ensures t in TasksOf(ts, id) <==> id in t.featureIds
  {
    if id in t.featureIds {
      TasksOfKeeps(ts, id, t);
    }
  }

  /** The rules block lists exactly the rules that are not blank. */
  lemma FeatureRulesExactly(rules: seq<string>, x: string)
    requires x in rules
    ensures x in KeepNonBlank(rules) <==> !IsBlank(x)
  {
    if !IsBlank(x) {
      KeepNonBlankKeeps(rules, x);
    }
  }

  /** The schema prompt lists exactly the tables with a name. */
  lemma SchemaTablesExactly(ts: seq<Table>, t: Table)
    requires t in ts
    ensures t in NamedTables(ts) <==> t.name != ""
  {
    if t.name != "" {
      NamedTablesKeeps(ts, t);
    }
  }
}
