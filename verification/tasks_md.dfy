/** `tasks/TASKS-MASTER.md` and one `tasks/<task slug>.md` per task
    (markdown/generate-tasks.ts), as lists of lines. */
module TasksMd {
  import opened Text
  import opened Lines
  import opened Project
  import opened DocPaths

  const MASTER_HEAD := "| ID | Name | Feature(s) |"
  const MASTER_RULE := "|----|------|-----------|"
  const TASK_FOOTER := "*See [Tasks Master]" + "(TASKS-MASTER.md) | " + "[PROJECT.md](../PROJECT.md)*"
  const NO_FEATURES := "_Not linked to " + "any feature._"
  const NOT_SPECIFIED := "_Not specified._"

  /** `features.filter((f) => ids.includes(f.id))`, in feature order. */
  function FeaturesOf(fs: seq<Feature>, ids: seq<string>): (r: seq<Feature>)
    ensures |r| <= |fs|
    ensures forall i | 0 <= i < |r| :: r[i] in fs && r[i].id in ids
  {
    if fs == [] then []
    else if fs[0].id in ids then [fs[0]] + FeaturesOf(fs[1..], ids)
    else FeaturesOf(fs[1..], ids)
  }

  /** Every feature the task lists is kept. */
  lemma {:induction false} FeaturesOfKeeps(fs: seq<Feature>, ids: seq<string>, f: Feature)
    requires f in fs && f.id in ids
    ensures f in FeaturesOf(fs, ids)
  {
    if fs[0] != f {
      FeaturesOfKeeps(fs[1..], ids, f);
    }
  }

  /** `.map((f) => f.name || "Unnamed")` */
  function FeatureNames(fs: seq<Feature>): (r: seq<string>)
    ensures |r| == |fs|
    ensures forall i | 0 <= i < |fs| :: r[i] == OrElse(fs[i].name, "Unnamed")
  {
    seq(|fs|, i requires 0 <= i < |fs| => OrElse(fs[i].name, "Unnamed"))
  }

  /** The Feature(s) cell: the linked features' names joined by ", ", or a
      dash when the task links none. */
  function FeatureCell(t: Task, fs: seq<Feature>): (r: string)
    ensures FeaturesOf(fs, t.featureIds) == [] ==> r == "—"
    ensures FeaturesOf(fs, t.featureIds) != [] ==> r == Join(FeatureNames(FeaturesOf(fs, t.featureIds)), ", ")
  {
    var names := FeatureNames(FeaturesOf(fs, t.featureIds));
    if names != [] then
      assert |names[0]| > 0;
      JoinNonEmpty(names, ", ");
      OrElse(Join(names, ", "), "—")
    else
      OrElse(Join(names, ", "), "—")
  }

  /** A join whose first part is non-empty is non-empty. */
  lemma JoinNonEmpty(parts: seq<string>, sep: string)
    requires |parts| > 0 && |parts[0]| > 0
    ensures Join(parts, sep) != ""
  {
    JoinStartsWithFirst(parts, sep);
  }

  function MasterRow(t: Task, fs: seq<Feature>): string {
    "| [" + FormatTaskNumber(t.taskNumber) + "](" + TaskFile(t) + ") | "
    + OrElse(t.name, "Unnamed") + " | " + FeatureCell(t, fs) + " |"
  }

  function MasterRows(ts: seq<Task>, fs: seq<Feature>): (r: seq<string>)
    ensures |r| == |ts| && NoEmptyLine(r)
    ensures forall i | 0 <= i < |ts| :: r[i] == MasterRow(ts[i], fs)
  {
    seq(|ts|, i requires 0 <= i < |ts| => MasterRow(ts[i], fs))
  }

  /** `generateTasksMasterMd`: a fixed head with the task count, then a
      table with one row per task in state order (or a placeholder), then a
      fixed footer. */
  function MasterLines(ts: seq<Task>, fs: seq<Feature>): (r: seq<string>)
    ensures |r| == (if |ts| > 0 then 13 + |ts| else 12)
    ensures r[..6] == ["# Tasks Master", "", Summary(|ts|, "task"), "", "---", ""]
    ensures |ts| > 0 ==> BodyAt(r, 6, [MASTER_HEAD, MASTER_RULE] + MasterRows(ts, fs))
    ensures |ts| == 0 ==> BodyAt(r, 6, ["_No tasks defined._"])
    ensures r[|r| - 5..] == ["", "---", "", PROJECT_FOOTER, ""]
  {
    var table := if |ts| > 0 then [MASTER_HEAD, MASTER_RULE] + MasterRows(ts, fs) else ["_No tasks defined._"];
    IndexDoc("# Tasks Master", Summary(|ts|, "task"), table, PROJECT_FOOTER)
  }

  function TasksMasterText(s: ProjectState): string {
    Join(MasterLines(s.tasks, s.features), "\n")
  }

  /** A Related Features entry: the feature's name linked to its file. */
  function FeatureLink(f: Feature): string {
    "- [" + OrElse(f.name, "Unnamed") + "](../features/" + FeatureFile(f) + ")"
  }

  function FeatureLinks(t: Task, fs: seq<Feature>): (r: seq<string>)
    ensures |r| == |FeaturesOf(fs, t.featureIds)| && NoEmptyLine(r)
    ensures forall i | 0 <= i < |r| :: r[i] == FeatureLink(FeaturesOf(fs, t.featureIds)[i])
  {
    var linked := FeaturesOf(fs, t.featureIds);
    seq(|linked|, i requires 0 <= i < |linked| => FeatureLink(linked[i]))
  }

  function FeaturesBody(t: Task, fs: seq<Feature>): (r: seq<string>)
    ensures NoEmptyLine(r) && |r| >= 1
  {
    OrPlaceholder(FeatureLinks(t, fs), NO_FEATURES)
  }

  /** `text.trim() || "_Not specified._"` */
  function TrimmedOr(text: string): (r: string)
    ensures IsBlank(text) ==> r == NOT_SPECIFIED
    ensures !IsBlank(text) ==> r == Trim(text)
  {
    OrElse(Trim(text), NOT_SPECIFIED)
  }

  function TaskHead(t: Task): (r: seq<string>)
    ensures |r| == 6 && r[0] == "# " + FormatTaskNumber(t.taskNumber) + ": " + OrElse(t.name, "Unnamed Task")
    ensures r[4] == "## Related Features" && |r[5]| == 0
  {
    ["# " + FormatTaskNumber(t.taskNumber) + ": " + OrElse(t.name, "Unnamed Task"), "", "---", "", "## Related Features", ""]
  }

  /** `generateTaskMd`: the Related Features section lists exactly the
      features the task names, in state order, or a placeholder; the
      definition of done and the file boundaries are trimmed, with a
      placeholder when blank. */
  function TaskLines(t: Task, fs: seq<Feature>): (r: seq<string>)
    ensures |r| == 19 + |FeaturesBody(t, fs)|
    ensures r[..6] == TaskHead(t) && BodyAt(r, 6, FeaturesBody(t, fs))
    ensures r[|r| - 12] == DONE_HEADING && r[|r| - 10] == TrimmedOr(t.definitionOfDone)
    ensures r[|r| - 8] == BOUNDARIES_HEADING && r[|r| - 6] == TrimmedOr(t.fileBoundaries)
    ensures r[|r| - 5..] == ["", "---", "", TASK_FOOTER, ""]
  {
    AssembleTask(TaskHead(t), FeaturesBody(t, fs), TrimmedOr(t.definitionOfDone), TrimmedOr(t.fileBoundaries))
  }

  const DONE_HEADING := "## Definition of Done"
  const BOUNDARIES_HEADING := "## File Boundaries"

  function AssembleTask(head: seq<string>, links: seq<string>, done: string, bounds: string): (r: seq<string>)
    requires |head| == 6 && NoEmptyLine(links)
    ensures |r| == 19 + |links|
    ensures r[..6] == head && BodyAt(r, 6, links)
    ensures r[|r| - 12] == DONE_HEADING && r[|r| - 10] == done
    ensures r[|r| - 8] == BOUNDARIES_HEADING && r[|r| - 6] == bounds
    ensures r[|r| - 5..] == ["", "---", "", TASK_FOOTER, ""]
  {
    head + links + ["", DONE_HEADING, "", done, "", BOUNDARIES_HEADING, "", bounds, "", "---", "", TASK_FOOTER, ""]
  }

  /** Reading the Related Features section back yields one link per
      feature the task names, in state order, or the placeholder. */
  lemma TaskDocReadsBack(t: Task, fs: seq<Feature>)
    ensures LeadingRun(TaskLines(t, fs)[6..]) == FeaturesBody(t, fs)
  {
    BodyAtReads(TaskLines(t, fs), 6, FeaturesBody(t, fs));
  }
}
