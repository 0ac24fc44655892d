/** The chat assistant's tool calls (components/chat/chat-widget.tsx):
    `executeToolCall` turns one tool use into a result message and at most
    one dispatch, and a batch of tool uses runs against one snapshot of the
    project with per-tool offsets. The model's reply, the network round
    trips and the system prompt are not part of this model; the id
    `crypto.randomUUID()` would give is a parameter. */
module Chat {
  import opened Wrappers
  import opened Text
  import opened Slug
  import opened Project
  import Reducer
  import DocPaths
  import StepEdits

  /** The tool input fields the executor reads; a missing or `null` field
      is `None`. */
  datatype Input = Input(
    name: Option<string>,
    purpose: Option<string>,
    description: Option<string>,
    businessRules: Option<seq<string>>,
    acceptanceCriteria: Option<seq<string>>,
    definitionOfDone: Option<string>,
    fileBoundaries: Option<string>,
    outOfScope: Option<string>)

  datatype ToolCall = ToolCall(name: string, input: Input)

  /** The result text sent back to the model and the dispatch made, if any. */
  datatype Outcome = Outcome(message: string, action: Option<Reducer.Action>)

  const ADD_TASK := "add_task"
  const ADD_FEATURE := "add_feature"

  /** `if (input.x)` on a string field: present and non-empty. */
  predicate Truthy(o: Option<string>) {
    o.Some? && o.value != ""
  }

  /** `state.tasks.length > 0 ? Math.max(...numbers) : 0` */
  function MaxOrZero(tasks: seq<Task>): (m: int)
    ensures tasks == [] ==> m == 0
    ensures tasks != [] ==> m == StepEdits.MaxNumber(tasks)
  {
    if tasks == [] then 0 else StepEdits.MaxNumber(tasks)
  }

  // ---------------------------------------------------------------------
  // The four tools

  /** `set_project_identity`: only the truthy fields are patched (the slug
      is not touched), and the message lists what changed. */
  function IdentityOutcome(input: Input): (r: Outcome)
    ensures r.action.Some? && r.action.value.SetIdentity?
    ensures var p := r.action.value.identityPatch;
      && (p.name.Some? <==> Truthy(input.name))
      && (p.purpose.Some? <==> Truthy(input.purpose))
      && (p.name.Some? ==> p.name == input.name)
      && (p.purpose.Some? ==> p.purpose == input.purpose)
      && p.slug.None? && p.techStack.None? && p.projectMode.None?
      && p.existingFolderTree.None? && p.existingSchema.None?
    ensures StartsWith(r.message, "Updated project identity — ")
  {
    var name := if Truthy(input.name) then input.name else None;
    var purpose := if Truthy(input.purpose) then input.purpose else None;
    var parts :=
      (if Truthy(input.name) then ["name → \"" + input.name.value + "\""] else [])
      + (if Truthy(input.purpose) then ["purpose set"] else []);
    var msg := "Updated project identity — " + Join(parts, ", ");
    assert msg[..|"Updated project identity — "|] == "Updated project identity — ";
    Outcome(msg, Some(Reducer.SetIdentity(Reducer.IdentityPatch(name, None, purpose, None, None, None, None))))
  }

  /** `add_feature`: the named (or "Unnamed feature") feature, slugged like
      the project name, after the features already there and those added
      earlier in the batch. */
  function NewFeature(input: Input, s: ProjectState, featureOffset: nat, id: string): (f: Feature)
    ensures f.id == id && f.name == input.name.GetOr("Unnamed feature")
    ensures f.slug == ProjectSlug(f.name) && IsSlug(f.slug)
    ensures f.sortOrder == |s.features| + featureOffset
    ensures f.relatedTables == []
  {
    var name := input.name.GetOr("Unnamed feature");
    NameSlugIsProjectSlug(name);
    ProjectSlugIsSlug(name);
    Feature(id, name, NameSlug(name), input.description.GetOr(""),
      input.businessRules.GetOr([]), input.acceptanceCriteria.GetOr([]), [],
      |s.features| + featureOffset)
  }

  /** `add_task`: numbered `(max or 0) + 1 + offset` — the tasks step's next
      number shifted by the tasks added earlier in the batch — not started,
      linked to no feature. */
  function NewTask(input: Input, s: ProjectState, taskOffset: nat, id: string): (t: Task)
    ensures t.id == id && t.name == input.name.GetOr("Unnamed task")
    ensures t.taskNumber == StepEdits.NextTaskNumber(s.tasks) + taskOffset
    ensures forall i | 0 <= i < |s.tasks| :: t.taskNumber > s.tasks[i].taskNumber
    ensures t.status == Some(NotStarted) && t.featureIds == []
    ensures t.sortOrder == |s.tasks| + taskOffset
    ensures t.outOfScope == Some(input.outOfScope.GetOr(""))
  {
    Task(id, MaxOrZero(s.tasks) + 1 + taskOffset, input.name.GetOr("Unnamed task"), [],
      input.definitionOfDone.GetOr(""), input.fileBoundaries.GetOr(""),
      Some(input.outOfScope.GetOr("")), Some(NotStarted), |s.tasks| + taskOffset)
  }

  /** `executeToolCall`. Unknown tools dispatch nothing. */
  function Execute(call: ToolCall, s: ProjectState, taskOffset: nat, featureOffset: nat, id: string): (r: Outcome)
    ensures call.name == ADD_TASK ==> r.action == Some(Reducer.AddTask(NewTask(call.input, s, taskOffset, id)))
    ensures call.name == ADD_FEATURE ==> r.action == Some(Reducer.AddFeature(NewFeature(call.input, s, featureOffset, id)))
    ensures call.name == "set_database_description" ==> r.action == Some(Reducer.SetDatabase(
      Reducer.DatabasePatch(Some(PlainEnglish), Some(call.input.description.GetOr("")), None, None)))
    ensures r.action.None? <==> call.name !in {"set_project_identity", ADD_FEATURE, ADD_TASK, "set_database_description"}
    ensures r.action.None? ==> r.message == "Unknown tool: " + call.name
  {
    match call.name
    case "set_project_identity" => IdentityOutcome(call.input)
    case "add_feature" =>
      var f := NewFeature(call.input, s, featureOffset, id);
      Outcome("Added feature: \"" + f.name + "\"", Some(Reducer.AddFeature(f)))
    case "add_task" =>
      var t := NewTask(call.input, s, taskOffset, id);
      Outcome("Added " + DocPaths.FormatTaskNumber(t.taskNumber) + ": \"" + t.name + "\"", Some(Reducer.AddTask(t)))
    case "set_database_description" =>
      Outcome("Set database description", Some(Reducer.SetDatabase(
        Reducer.DatabasePatch(Some(PlainEnglish), Some(call.input.description.GetOr("")), None, None))))
    case _ => Outcome("Unknown tool: " + call.name, None)
  }

  // ---------------------------------------------------------------------
  // A batch of tool uses

  /** How many calls of a tool a list holds. */
  function Occurrences(calls: seq<ToolCall>, name: string): nat {
    if calls == [] then 0
    else Occurrences(calls[..|calls| - 1], name) + (if calls[|calls| - 1].name == name then 1 else 0)
  }

  /** The offsets a call is executed with: the calls of the same tool before
      it. */
  function OffsetBefore(calls: seq<ToolCall>, i: nat, name: string): nat
    requires i <= |calls|
  {
    Occurrences(calls[..i], name)
  }

  /** The tool loop of `sendMessage`: every call runs against the same
      pre-batch state; `taskOffset` and `featureOffset` count the `add_task`
      and `add_feature` calls already run. `ids[i]` is the id call `i`
      would draw. */
  method RunBatch(calls: seq<ToolCall>, s: ProjectState, ids: seq<string>) returns (results: seq<Outcome>)
    requires |ids| == |calls|
    ensures |results| == |calls|
    ensures forall i | 0 <= i < |calls| :: results[i] == Execute(calls[i], s,
      OffsetBefore(calls, i, ADD_TASK), OffsetBefore(calls, i, ADD_FEATURE), ids[i])
  {
    results := [];
    var taskOffset, featureOffset := 0, 0;
    var i := 0;
    while i < |calls|
      invariant 0 <= i <= |calls| && |results| == i
      invariant taskOffset == OffsetBefore(calls, i, ADD_TASK)
      invariant featureOffset == OffsetBefore(calls, i, ADD_FEATURE)
      invariant forall k | 0 <= k < i :: results[k] == Execute(calls[k], s,
        OffsetBefore(calls, k, ADD_TASK), OffsetBefore(calls, k, ADD_FEATURE), ids[k])
    {
      var r := Execute(calls[i], s, taskOffset, featureOffset, ids[i]);
      OffsetStep(calls, i, ADD_TASK);
      OffsetStep(calls, i, ADD_FEATURE);
      if calls[i].name == ADD_TASK { taskOffset := taskOffset + 1; }
      if calls[i].name == ADD_FEATURE { featureOffset := featureOffset + 1; }
      results := results + [r];
      i := i + 1;
    }
  }

  /** Running one more call counts it if it is of the tool. */
  lemma OffsetStep(calls: seq<ToolCall>, i: nat, name: string)
    requires i < |calls|
    ensures OffsetBefore(calls, i + 1, name) == OffsetBefore(calls, i, name) + (if calls[i].name == name then 1 else 0)
  {
    assert calls[..i + 1][..i] == calls[..i];
  }

  /** A later call of a tool has seen at least one more call of it than an
      earlier one. */
  lemma {:induction false} OffsetGrows(calls: seq<ToolCall>, i: nat, j: nat, name: string)
    requires i < j <= |calls| && calls[i].name == name
    ensures OffsetBefore(calls, j, name) >= OffsetBefore(calls, i, name) + 1
  {
    assert calls[..j][..j - 1] == calls[..j - 1];
    if j - 1 > i {
      OffsetGrows(calls, i, j - 1, name);
    } else {
      assert calls[..j - 1] == calls[..i];
    }
  }

  /** The task number a batch result carries, if it added a task. */
  function AddedNumber(r: Outcome): Option<int> {
    if r.action.Some? && r.action.value.AddTask? then Some(r.action.value.task.taskNumber) else None
  }

  /** The `add_task` calls of one batch get consecutive numbers past every
      existing task: the k-th of them gets the next free number plus k, so
      later calls get strictly larger numbers. */
  lemma BatchTaskNumbers(calls: seq<ToolCall>, s: ProjectState, ids: seq<string>, results: seq<Outcome>, i: nat, j: nat)
    requires |ids| == |calls| == |results|
    requires forall k | 0 <= k < |calls| :: results[k] == Execute(calls[k], s,
      OffsetBefore(calls, k, ADD_TASK), OffsetBefore(calls, k, ADD_FEATURE), ids[k])
    requires i < j < |calls| && calls[i].name == ADD_TASK && calls[j].name == ADD_TASK
    ensures AddedNumber(results[i]) == Some(StepEdits.NextTaskNumber(s.tasks) + OffsetBefore(calls, i, ADD_TASK))
    ensures AddedNumber(results[j]).Some? && AddedNumber(results[i]).value < AddedNumber(results[j]).value
    ensures forall k | 0 <= k < |s.tasks| :: AddedNumber(results[i]).value > s.tasks[k].taskNumber
  {
    OffsetGrows(calls, i, j, ADD_TASK);
    AddedTask(calls[i], s, OffsetBefore(calls, i, ADD_TASK), OffsetBefore(calls, i, ADD_FEATURE), ids[i], results[i]);
    AddedTask(calls[j], s, OffsetBefore(calls, j, ADD_TASK), OffsetBefore(calls, j, ADD_FEATURE), ids[j], results[j]);
  }

  /** An `add_task` result carries the next free number plus its offset. */
  lemma AddedTask(call: ToolCall, s: ProjectState, taskOffset: nat, featureOffset: nat, id: string, r: Outcome)
    requires call.name == ADD_TASK && r == Execute(call, s, taskOffset, featureOffset, id)
    ensures AddedNumber(r) == Some(StepEdits.NextTaskNumber(s.tasks) + taskOffset)
    ensures forall k | 0 <= k < |s.tasks| :: AddedNumber(r).value > s.tasks[k].taskNumber
  {
  }
}
