/** `features/FEATURES-INDEX.md` and one `features/<slug>.md` per feature
    (markdown/generate-features.ts). A document is its list of lines; the
    generator joins them with line feeds. */
module FeaturesMd {
  import opened Text
  import opened Lines
  import opened Project
  import opened DocPaths

  const INDEX_HEAD := "| Feature | Description | Tasks |"
  const INDEX_RULE := "|---------|-------------|-------|"
  const CRITERIA_PROMPT := "> What does success " + "look like from the " + "user's perspective?"
  const RULES_PROMPT := "> Technical constraints " + "and system requirements."
  const FEATURE_FOOTER := "*See [Features Index]" + "(FEATURES-INDEX.md) | " + "[PROJECT.md](../PROJECT.md)*"
  const NO_TASKS := "_No tasks linked " + "to this feature._"

  /** `tasks.filter((t) => t.featureIds.includes(fid))`, in task order. */
  function TasksOf(ts: seq<Task>, fid: string): (r: seq<Task>)
    ensures |r| <= |ts|
    ensures forall i | 0 <= i < |r| :: r[i] in ts && fid in r[i].featureIds
  {
    if ts == [] then []
    else if fid in ts[0].featureIds then [ts[0]] + TasksOf(ts[1..], fid)
    else TasksOf(ts[1..], fid)
  }

  /** Every task that lists the feature is kept. */
  lemma {:induction false} TasksOfKeeps(ts: seq<Task>, fid: string, t: Task)
    requires t in ts && fid in t.featureIds
    ensures t in TasksOf(ts, fid)
  {
    if ts[0] != t {
      TasksOfKeeps(ts[1..], fid, t);
    }
  }

  /** One row of the index table: the linked name, the description and the
      number of tasks that list the feature. */
  function IndexRow(f: Feature, ts: seq<Task>): string {
    "| [" + OrElse(f.name, "Unnamed") + "](" + FeatureFile(f) + ") | "
    + OrElse(f.description, "—") + " | " + NatToString(|TasksOf(ts, f.id)|) + " |"
  }

  function IndexRows(fs: seq<Feature>, ts: seq<Task>): (r: seq<string>)
    ensures |r| == |fs| && NoEmptyLine(r)
    ensures forall i | 0 <= i < |fs| :: r[i] == IndexRow(fs[i], ts)
  {
    seq(|fs|, i requires 0 <= i < |fs| => IndexRow(fs[i], ts))
  }

  /** `generateFeaturesIndexMd`: a fixed head with the feature count, then a
      table with one row per feature in state order (or a placeholder), then
      a fixed footer. */
  function IndexLines(fs: seq<Feature>, ts: seq<Task>): (r: seq<string>)
    ensures |r| == (if |fs| > 0 then 13 + |fs| else 12)
    ensures r[..6] == ["# Features Index", "", Summary(|fs|, "feature"), "", "---", ""]
    ensures |fs| > 0 ==> BodyAt(r, 6, [INDEX_HEAD, INDEX_RULE] + IndexRows(fs, ts))
    ensures |fs| == 0 ==> BodyAt(r, 6, ["_No features defined._"])
    ensures r[|r| - 5..] == ["", "---", "", PROJECT_FOOTER, ""]
  {
    var table := if |fs| > 0 then [INDEX_HEAD, INDEX_RULE] + IndexRows(fs, ts) else ["_No features defined._"];
    IndexDoc("# Features Index", Summary(|fs|, "feature"), table, PROJECT_FOOTER)
  }

  function FeaturesIndexText(s: ProjectState): string {
    Join(IndexLines(s.features, s.tasks), "\n")
  }

  /** A Related Tasks entry: the task's label and name, linked to its file. */
  function TaskLink(t: Task): string {
    "- [" + FormatTaskNumber(t.taskNumber) + ": " + OrElse(t.name, "Unnamed") + "](../tasks/" + TaskFile(t) + ")"
  }

  function TaskLinks(f: Feature, ts: seq<Task>): (r: seq<string>)
    ensures |r| == |TasksOf(ts, f.id)| && NoEmptyLine(r)
    ensures forall i | 0 <= i < |r| :: r[i] == TaskLink(TasksOf(ts, f.id)[i])
  {
    var related := TasksOf(ts, f.id);
    seq(|related|, i requires 0 <= i < |related| => TaskLink(related[i]))
  }

  function CriteriaBody(f: Feature): (r: seq<string>)
    ensures NoEmptyLine(r) && |r| >= 1
  {
    OrPlaceholder(Bullets(KeepNonBlank(f.acceptanceCriteria)), "_No acceptance criteria defined._")
  }

  function RulesBody(f: Feature): (r: seq<string>)
    ensures NoEmptyLine(r) && |r| >= 1
  {
    OrPlaceholder(Bullets(KeepNonBlank(f.businessRules)), "_No business rules defined._")
  }

  function TablesBody(f: Feature): (r: seq<string>)
    ensures NoEmptyLine(r) && |r| >= 1
  {
    OrPlaceholder(Bullets(f.relatedTables), "_No related tables._")
  }

  function TasksBody(f: Feature, ts: seq<Task>): (r: seq<string>)
    ensures NoEmptyLine(r) && |r| >= 1
  {
    OrPlaceholder(TaskLinks(f, ts), NO_TASKS)
  }

  /** The title, the description and the opening of the first section. */
  function FeatureHead(f: Feature): (r: seq<string>)
    ensures |r| == 10
    ensures r[0] == "# Feature: " + OrElse(f.name, "Unnamed Feature")
    ensures r[2] == OrElse(f.description, "_No description._")
    ensures r[6] == "## Acceptance Criteria" && |r[9]| == 0
  {
    ["# Feature: " + OrElse(f.name, "Unnamed Feature"), "", OrElse(f.description, "_No description._"),
     "", "---", "", "## Acceptance Criteria", "", CRITERIA_PROMPT, ""]
  }

  /** `generateFeatureMd`: a reader who takes the lines after each section's
      heading up to the next empty line gets back the non-blank acceptance
      criteria and business rules, the related tables and exactly the tasks
      that list the feature, in state order (each as a bullet), or the
      section's placeholder. */
  function FeatureLines(f: Feature, ts: seq<Task>): (r: seq<string>)
    ensures |r| == 26 + |CriteriaBody(f)| + |RulesBody(f)| + |TablesBody(f)| + |TasksBody(f, ts)|
    ensures r[..10] == FeatureHead(f) && BodyAt(r, 10, CriteriaBody(f))
    ensures var c := |CriteriaBody(f)|;
      r[11 + c] == RULES_HEADING && BodyAt(r, 15 + c, RulesBody(f))
    ensures var n := |CriteriaBody(f)| + |RulesBody(f)|;
      r[16 + n] == TABLES_HEADING && BodyAt(r, 18 + n, TablesBody(f))
    ensures r[|r| - 7 - |TasksBody(f, ts)|] == TASKS_HEADING
    ensures LastBody(r[..|r| - 5], TasksBody(f, ts))
    ensures r[|r| - 5..] == FEATURE_TAIL
  {
    Assemble(FeatureHead(f), CriteriaBody(f), RulesBody(f), TablesBody(f), TasksBody(f, ts))
  }

  /** The section frame of a feature document around its five variable parts. */
  function Assemble(head: seq<string>, crit: seq<string>, rules: seq<string>, tables: seq<string>, tasks: seq<string>): (r: seq<string>)
    requires |head| == 10 && |head[9]| == 0
    requires NoEmptyLine(crit) && NoEmptyLine(rules) && NoEmptyLine(tables) && NoEmptyLine(tasks)
    ensures |r| == 26 + |crit| + |rules| + |tables| + |tasks|
    ensures r[..10] == head && BodyAt(r, 10, crit)
    ensures r[11 + |crit|] == RULES_HEADING && BodyAt(r, 15 + |crit|, rules)
    ensures r[16 + |crit| + |rules|] == TABLES_HEADING && BodyAt(r, 18 + |crit| + |rules|, tables)
    ensures r[|r| - 7 - |tasks|] == TASKS_HEADING
    ensures LastBody(r[..|r| - 5], tasks)
    ensures r[|r| - 5..] == FEATURE_TAIL
  {
    Layout(head, crit, RULES_HEAD, rules, TABLES_HEAD, tables, TASKS_HEAD, tasks, FEATURE_TAIL);
    head + crit + RULES_HEAD + rules + TABLES_HEAD + tables + TASKS_HEAD + tasks + FEATURE_TAIL
  }

  /** Where each part of a feature document sits. */
  lemma Layout(head: seq<string>, crit: seq<string>, h1: seq<string>, rules: seq<string>, h2: seq<string>,
               tables: seq<string>, h3: seq<string>, tasks: seq<string>, tail: seq<string>)
    requires |head| == 10 && |h1| == 5 && |h2| == 3 && |h3| == 3 && |tail| == 5
    ensures var r := head + crit + h1 + rules + h2 + tables + h3 + tasks + tail;
      var c, b, t := |crit|, |rules|, |tables|;
      && |r| == 26 + c + b + t + |tasks|
      && r[..10] == head && r[|r| - 5..] == tail
      && r[10..10 + c] == crit && r[10 + c] == h1[0] && r[11 + c] == h1[1]
      && r[15 + c..15 + c + b] == rules && r[15 + c + b] == h2[0] && r[16 + c + b] == h2[1]
      && r[18 + c + b..18 + c + b + t] == tables && r[18 + c + b + t] == h3[0]
      && r[|r| - 7 - |tasks|] == h3[1]
      && r[..|r| - 5] == head + crit + h1 + rules + h2 + tables + h3 + tasks
  {
  }

  const RULES_HEADING := "## Business Rules"
  const TABLES_HEADING := "## Related Tables"
  const TASKS_HEADING := "## Related Tasks"
  const RULES_HEAD := ["", RULES_HEADING, "", RULES_PROMPT, ""]
  const TABLES_HEAD := ["", TABLES_HEADING, ""]
  const TASKS_HEAD := ["", TASKS_HEADING, ""]
  const FEATURE_TAIL := ["", "---", "", FEATURE_FOOTER, ""]

  /** The tasks column of the index counts exactly the entries of the
      feature document's Related Tasks section, which holds the placeholder
      only when no task lists the feature. */
  lemma IndexCountMatchesFeatureDoc(f: Feature, ts: seq<Task>)
    ensures var r := FeatureLines(f, ts);
      var n := |TasksOf(ts, f.id)|;
      && (n > 0 ==> LastBody(r[..|r| - 5], TaskLinks(f, ts)) && |TaskLinks(f, ts)| == n)
      && (n == 0 ==> LastBody(r[..|r| - 5], [NO_TASKS]))
  {
  }
}
