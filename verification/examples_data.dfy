/** The bundled example projects (src/data/examples.ts): the `f` helper
    that turns a path and a markdown body into a generated file, and the
    `taskCount` each example advertises. The markdown bodies themselves are
    not part of this model; an example is described by the paths (and the
    explicit categories) of its files. */
module ExampleData {
  import opened Wrappers
  import opened Text
  import opened Project
  import Words

  /** `f(path, content, category = "root")`. The file name is the last `/`
      segment, or the whole path when that segment is empty; the content is
      trimmed and ends with exactly one line break; the word count is taken
      on the raw content. */
  function ExampleFile(path: string, content: string, category: Option<Category>): (r: GeneratedFile)
    ensures r.path == path
    ensures '/' !in r.filename || r.filename == path
    ensures r.filename != "" || path == ""
    ensures |r.content| >= 1 && r.content[|r.content| - 1] == '\n'
    ensures r.content[..|r.content| - 1] == Trim(content)
    ensures r.wordCount >= 1 && r.wordCount == Words.ExampleWordCount(content)
    ensures r.category == category.GetOr(Root)
  {
    var last := LastSegment(path);
    var filename := if last != "" then last else path;
    var body := Trim(content) + "\n";
    assert body[..|body| - 1] == Trim(content);
    GeneratedFile(path, filename, body, Words.ExampleWordCount(content), category.GetOr(Root))
  }

  /** A file under a folder is named after its last segment. */
  lemma ExampleFileName(dir: string, name: string, content: string, category: Option<Category>)
    requires '/' !in name && name != ""
    ensures ExampleFile(dir + "/" + name, content, category).filename == name
    ensures ExampleFile(name, content, category).filename == name
  {
    LastSegmentOfJoined(dir, name);
  }

  /** Trimming a trimmed body and adding its line break again changes
      nothing: `f` is idempotent on the content it produces. */
  lemma ExampleContentIdempotent(path: string, content: string, category: Option<Category>)
    ensures var r := ExampleFile(path, content, category);
      ExampleFile(path, r.content, category).content == r.content
  {
    var x := Trim(content);
    var r := ExampleFile(path, content, category);
    ExampleContent(path, content, category);
    ExampleContent(path, r.content, category);
    TrimLineBreak(x);
  }

  /** The file body is the trimmed content and one line break. */
  lemma ExampleContent(path: string, content: string, category: Option<Category>)
    ensures ExampleFile(path, content, category).content == Trim(content) + "\n"
  {
  }

  /** `(x + "\n").trim()` is `x` for an already trimmed `x`. */
  lemma TrimLineBreak(x: string)
    requires x == "" || (!IsSpace(x[0]) && !IsSpace(x[|x| - 1]))
    ensures Trim(x + "\n") == x
  {
    if x == "" {
      assert IsBlank(x + "\n") by {
        assert x + "\n" == "\n";
      }
    } else {
      var s := x + "\n";
      assert s[0] == x[0];
      assert TrimStart(s) == s;
      TrimEndLineBreak(x);
    }
  }

  lemma TrimEndLineBreak(x: string)
    requires x != "" && !IsSpace(x[|x| - 1])
    ensures TrimEnd(x + "\n") == x
  {
    var s := x + "\n";
    assert s[..|x|] == x && s[|x| - 1] == x[|x| - 1];
    assert IsSpace(s[|s| - 1]);
    assert TrimEnd(s) == TrimEnd(s[..|s| - 1]);
  }

  // ---------------------------------------------------------------------
  // The examples' task counts

  /** One `f(...)` call of an example: its path and its explicit category
      argument, if any. */
  datatype Entry = Entry(path: string, category: Option<Category>)

  datatype Example = Example(id: string, taskCount: int, entries: seq<Entry>)

  /** A task document: a file under `tasks/` other than the master list. */
  predicate IsTaskDoc(path: string) {
    StartsWith(path, "tasks/") && path != "tasks/TASKS-MASTER.md"
  }

  /** How many task documents a list of entries holds. */
  function TaskDocs(entries: seq<Entry>): (n: nat)
    ensures n <= |entries|
    ensures n == 0 <==> forall i | 0 <= i < |entries| :: !IsTaskDoc(entries[i].path)
  {
    if entries == [] then 0
    else TaskDocs(entries[..|entries| - 1]) + (if IsTaskDoc(entries[|entries| - 1].path) then 1 else 0)
  }

  lemma {:induction false} TaskDocsAppend(a: seq<Entry>, b: seq<Entry>)
    ensures TaskDocs(a + b) == TaskDocs(a) + TaskDocs(b)
    decreases |b|
  {
    if b == [] {
      assert a + b == a;
    } else {
      assert (a + b)[..|a + b| - 1] == a + b[..|b| - 1];
      TaskDocsAppend(a, b[..|b| - 1]);
    }
  }

  /** An example is consistent when the task count it shows equals the
      task documents it ships. */
  predicate Consistent(e: Example) {
    e.taskCount == TaskDocs(e.entries)
  }

  /** The files every example starts with: PROJECT.md at the root, the four
      `docs/` documents and the features index. */
  function Head(): seq<Entry> {
    [ Entry("PROJECT.md", None),
      Entry("docs/CONVENTIONS.md", Some(Docs)),
      Entry("docs/ARCHITECTURE.md", Some(Docs)),
      Entry("docs/SCHEMA.md", Some(Docs)),
      Entry("docs/STYLING.md", Some(Docs)),
      Entry("features/FEATURES-INDEX.md", Some(Features)) ]
  }

  /** The file every example ends with, at the root. */
  function Tail(): seq<Entry> {
    [ Entry("CONTEXT-WINDOW-STARTERS.md", None) ]
  }

  /** The feature documents of an example, under `features/`. */
  function FeatureEntries(names: seq<string>): (r: seq<Entry>)
    ensures |r| == |names|
    ensures forall i | 0 <= i < |r| :: r[i].category == Some(Features) && StartsWith(r[i].path, "features/")
  {
    seq(|names|, i requires 0 <= i < |names| => Entry("features/" + names[i], Some(Features)))
  }

  /** The tasks folder of an example: the master list, then one document
      per task. */
  function TaskEntries(names: seq<string>): (r: seq<Entry>)
    ensures |r| == |names| + 1
    ensures forall i | 0 <= i < |r| :: r[i].category == Some(Tasks) && StartsWith(r[i].path, "tasks/")
  {
    [Entry("tasks/TASKS-MASTER.md", Some(Tasks))]
      + seq(|names|, i requires 0 <= i < |names| => Entry("tasks/" + names[i], Some(Tasks)))
  }

  /** Only the task folder holds task documents, one per task name. */
  lemma PartsTaskDocs(features: seq<string>, tasks: seq<string>)
    requires forall i | 0 <= i < |tasks| :: tasks[i] != "TASKS-MASTER.md"
    ensures TaskDocs(Head()) == 0 && TaskDocs(Tail()) == 0
    ensures TaskDocs(FeatureEntries(features)) == 0
    ensures TaskDocs(TaskEntries(tasks)) == |tasks|
  {
    HeadHasNoTaskDocs();
    TailHasNoTaskDocs();
    FeaturesHaveNoTaskDocs(features);
    TaskDocsOfNames(tasks);
  }

  /** Only a path starting with `t` can be under `tasks/`. */
  lemma NotTaskDoc(path: string)
    requires path != "" && path[0] != 't'
    ensures !IsTaskDoc(path)
  {
    if |path| >= 6 {
      assert path[..6][0] == path[0];
    }
  }

  lemma HeadHasNoTaskDocs()
    ensures TaskDocs(Head()) == 0
  {
    var h := Head();
    NotTaskDoc(h[0].path);
    NotTaskDoc(h[1].path);
    NotTaskDoc(h[2].path);
    NotTaskDoc(h[3].path);
    NotTaskDoc(h[4].path);
    NotTaskDoc(h[5].path);
  }

  lemma TailHasNoTaskDocs()
    ensures TaskDocs(Tail()) == 0
  {
    NotTaskDoc(Tail()[0].path);
  }

  lemma FeaturesHaveNoTaskDocs(features: seq<string>)
    ensures TaskDocs(FeatureEntries(features)) == 0
  {
    var fs := FeatureEntries(features);
    forall i | 0 <= i < |fs| ensures !IsTaskDoc(fs[i].path) {
      var p := fs[i].path;
      assert p[..9] == "features/";
      assert p[0] == p[..9][0];
      NotTaskDoc(p);
    }
  }

  lemma {:induction false} TaskDocsOfNames(tasks: seq<string>)
    requires forall i | 0 <= i < |tasks| :: tasks[i] != "TASKS-MASTER.md"
    ensures TaskDocs(TaskEntries(tasks)) == |tasks|
    decreases |tasks|
  {
    var r := TaskEntries(tasks);
    if tasks == [] {
      assert r == [Entry("tasks/TASKS-MASTER.md", Some(Tasks))];
      assert r[..0] == [];
    } else {
      var k := |tasks| - 1;
      TaskEntriesInit(tasks);
      TaskDocsOfNames(tasks[..k]);
      TaskEntryIsDoc(tasks[k]);
      assert r[|r| - 1].path == "tasks/" + tasks[k];
    }
  }

  /** Dropping the last task name drops the last entry. */
  lemma TaskEntriesInit(tasks: seq<string>)
    requires tasks != []
    ensures var r := TaskEntries(tasks);
      r[..|r| - 1] == TaskEntries(tasks[..|tasks| - 1])
      && r[|r| - 1] == Entry("tasks/" + tasks[|tasks| - 1], Some(Tasks))
  {
    var r, prev := TaskEntries(tasks), TaskEntries(tasks[..|tasks| - 1]);
    forall i | 0 <= i < |prev|
      ensures r[i] == prev[i]
    {
      if i > 0 {
        assert tasks[..|tasks| - 1][i - 1] == tasks[i - 1];
      }
    }
    assert r[..|r| - 1] == prev;
  }

  /** A task name other than the master list's is a task document. */
  lemma TaskEntryIsDoc(name: string)
    requires name != "TASKS-MASTER.md"
    ensures IsTaskDoc("tasks/" + name)
  {
    var p := "tasks/" + name;
    assert p[..6] == "tasks/" && p[6..] == name;
    assert "tasks/TASKS-MASTER.md"[6..] == "TASKS-MASTER.md";
  }

  /** An example laid out as every bundled one is: the head, its feature
      documents, its tasks folder and the context-window starters. */
  function Layout(features: seq<string>, tasks: seq<string>): seq<Entry> {
    Head() + FeatureEntries(features) + TaskEntries(tasks) + Tail()
  }

  /** The task count of such an example is its number of task names. */
  lemma LayoutTaskDocs(features: seq<string>, tasks: seq<string>)
    requires forall i | 0 <= i < |tasks| :: tasks[i] != "TASKS-MASTER.md"
    ensures TaskDocs(Layout(features, tasks)) == |tasks|
  {
    PartsTaskDocs(features, tasks);
    TaskDocsAppend(Head(), FeatureEntries(features));
    TaskDocsAppend(Head() + FeatureEntries(features), TaskEntries(tasks));
    TaskDocsAppend(Head() + FeatureEntries(features) + TaskEntries(tasks), Tail());
  }

  /** Task document names of the bundled examples all start with `0`
      (they are numbered from `000`), so none is the master list. */
  predicate Numbered(tasks: seq<string>) {
    forall i | 0 <= i < |tasks| :: tasks[i] != "" && tasks[i][0] == '0'
  }

  /** An example with that layout is consistent exactly when it advertises
      one task per task name. */
  lemma LayoutConsistent(id: string, count: int, features: seq<string>, tasks: seq<string>)
    requires Numbered(tasks)
    ensures Consistent(Example(id, count, Layout(features, tasks))) <==> count == |tasks|
  {
    forall i | 0 <= i < |tasks| ensures tasks[i] != "TASKS-MASTER.md" {
      assert tasks[i][0] != "TASKS-MASTER.md"[0];
    }
    LayoutTaskDocs(features, tasks);
  }

  function ClinicFlow(): Example {
    Example("clinicflow", 6, Layout(ClinicFlowFeatures(), ClinicFlowTasks()))
  }

  function ClinicFlowFeatures(): seq<string> {
    ["auth.md", "patient-management.md", "appointment-booking.md", "dashboard.md"]
  }

  function ClinicFlowTasks(): seq<string> {
    ["000-skeleton.md", "001-auth.md", "002-patient-api.md", "003-patient-ui.md",
     "004-appointments.md", "005-dashboard.md"]
  }

  function LaunchPad(): Example {
    Example("launchpad", 5, Layout(LaunchPadFeatures(), LaunchPadTasks()))
  }

  function LaunchPadFeatures(): seq<string> {
    ["landing-pages.md", "blog.md", "contact-form.md", "seo.md"]
  }

  function LaunchPadTasks(): seq<string> {
    ["000-skeleton.md", "001-landing.md", "002-blog.md", "003-contact.md", "004-seo.md"]
  }

  function PulseApi(): Example {
    Example("pulseapi", 5, Layout(PulseApiFeatures(), PulseApiTasks()))
  }

  function PulseApiFeatures(): seq<string> {
    ["user-auth.md", "push-notifications.md", "messaging.md", "file-uploads.md"]
  }

  function PulseApiTasks(): seq<string> {
    ["000-skeleton.md", "001-auth.md", "002-push.md", "003-messaging.md", "004-files.md"]
  }

  /** `exampleProjects`: ClinicFlow, LaunchPad and PulseAPI. */
  function Examples(): seq<Example> {
    [ClinicFlow(), LaunchPad(), PulseApi()]
  }

  lemma ClinicFlowConsistent()
    ensures Consistent(ClinicFlow())
  {
    var t := ClinicFlowTasks();
    assert Numbered(t) by {
      forall i | 0 <= i < |t| ensures t[i] != "" && t[i][0] == '0' { }
    }
    LayoutConsistent("clinicflow", 6, ClinicFlowFeatures(), t);
  }

  lemma LaunchPadConsistent()
    ensures Consistent(LaunchPad())
  {
    var t := LaunchPadTasks();
    assert Numbered(t) by {
      forall i | 0 <= i < |t| ensures t[i] != "" && t[i][0] == '0' { }
    }
    LayoutConsistent("launchpad", 5, LaunchPadFeatures(), t);
  }

  lemma PulseApiConsistent()
    ensures Consistent(PulseApi())
  {
    var t := PulseApiTasks();
    assert Numbered(t) by {
      forall i | 0 <= i < |t| ensures t[i] != "" && t[i][0] == '0' { }
    }
    LayoutConsistent("pulseapi", 5, PulseApiFeatures(), t);
  }

  /** Every bundled example advertises exactly as many tasks as it ships
      task documents. */
  lemma ExamplesConsistent()
    ensures forall i | 0 <= i < |Examples()| :: Consistent(Examples()[i])
  {
    var es := Examples();
    forall i | 0 <= i < |es|
      ensures Consistent(es[i])
    {
      if i == 0 {
        ClinicFlowConsistent();
      } else if i == 1 {
        LaunchPadConsistent();
      } else {
        PulseApiConsistent();
      }
    }
  }
}
