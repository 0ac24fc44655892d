/** `generateAll` (markdown/index.ts): the list of output files, in a fixed
    order, each with its path, file name, category, content (a per-path
    override wins over the rendered text) and word count. */
module Assembler {
  import opened Text
  import opened Project
  import opened DocPaths
  import opened Words
  import opened OutputNames
  import Slices

  /** The documents whose renderers are not part of this model
      (generate-prime.ts, generate-project.ts, generate-context-starters.ts
      and generate-ai-configs.ts), already rendered. */
  datatype External = External(prime: string, project: string, contextStarters: string,
                               claude: string, cursorRules: string, copilot: string)

  /** Every rendered text `generateAll` may emit, before overrides; the
      document of a feature or a task is a function of that entity. */
  datatype Rendered = Rendered(
    prime: string, project: string, quickRef: string, conventions: string,
    architecture: string, styling: string, schema: string,
    featuresIndex: string, featureDoc: Feature -> string,
    tasksMaster: string, taskDoc: Task -> string,
    contextStarters: string, claude: string, cursorRules: string, copilot: string)

  /** The files `generateAll` can emit, one per `files.push`. */
  datatype Output =
    | PrimeFile | ProjectFile | QuickRefFile | ConventionsFile | ArchitectureFile
    | StylingFile | SchemaFile | FeaturesIndexFile | FeatureFile(f: Feature)
    | TasksMasterFile | TaskFile(t: Task)
    | ContextStartersFile | ClaudeFile | CursorRulesFile | CopilotFile

  /** The path each file is written to. */
  function PathOf(o: Output): string {
    match o
    case PrimeFile => PRIME
    case ProjectFile => PROJECT
    case QuickRefFile => In("docs", QUICKREF)
    case ConventionsFile => In("docs", CONVENTIONS)
    case ArchitectureFile => In("docs", ARCHITECTURE)
    case StylingFile => In("docs", STYLING)
    case SchemaFile => In("docs", SCHEMA)
    case FeaturesIndexFile => In("features", FEATURES_INDEX)
    case FeatureFile(f) => In("features", DocPaths.FeatureFile(f))
    case TasksMasterFile => In("tasks", TASKS_MASTER)
    case TaskFile(t) => In("tasks", DocPaths.TaskFile(t))
    case ContextStartersFile => CONTEXT_STARTERS
    case ClaudeFile => CLAUDE
    case CursorRulesFile => CURSOR_RULES
    case CopilotFile => In(".github", COPILOT)
  }

  /** The `filename` field of each file. */
  function NameOf(o: Output): string {
    match o
    case PrimeFile => PRIME
    case ProjectFile => PROJECT
    case QuickRefFile => QUICKREF
    case ConventionsFile => CONVENTIONS
    case ArchitectureFile => ARCHITECTURE
    case StylingFile => STYLING
    case SchemaFile => SCHEMA
    case FeaturesIndexFile => FEATURES_INDEX
    case FeatureFile(f) => DocPaths.FeatureFile(f)
    case TasksMasterFile => TASKS_MASTER
    case TaskFile(t) => DocPaths.TaskFile(t)
    case ContextStartersFile => CONTEXT_STARTERS
    case ClaudeFile => CLAUDE
    case CursorRulesFile => CURSOR_RULES
    case CopilotFile => COPILOT
  }

  /** The category tag each `files.push` writes. */
  function CategoryFor(o: Output): Category {
    match o
    case PrimeFile | ProjectFile | ContextStartersFile => Root
    case QuickRefFile | ConventionsFile | ArchitectureFile | StylingFile | SchemaFile => Docs
    case FeaturesIndexFile | FeatureFile(_) => Features
    case TasksMasterFile | TaskFile(_) => Tasks
    case ClaudeFile | CursorRulesFile | CopilotFile => AiConfigs
  }

  /** The rendered document of each file. */
  function RenderedFor(o: Output, d: Rendered): string {
    match o
    case PrimeFile => d.prime
    case ProjectFile => d.project
    case QuickRefFile => d.quickRef
    case ConventionsFile => d.conventions
    case ArchitectureFile => d.architecture
    case StylingFile => d.styling
    case SchemaFile => d.schema
    case FeaturesIndexFile => d.featuresIndex
    case FeatureFile(f) => d.featureDoc(f)
    case TasksMasterFile => d.tasksMaster
    case TaskFile(t) => d.taskDoc(t)
    case ContextStartersFile => d.contextStarters
    case ClaudeFile => d.claude
    case CursorRulesFile => d.cursorRules
    case CopilotFile => d.copilot
  }

  function FeatureFiles(fs: seq<Feature>): (r: seq<Output>)
    ensures |r| == |fs|
    ensures forall i | 0 <= i < |fs| :: r[i] == FeatureFile(fs[i])
  {
    seq(|fs|, i requires 0 <= i < |fs| => FeatureFile(fs[i]))
  }

  function TaskFiles(ts: seq<Task>): (r: seq<Output>)
    ensures |r| == |ts|
    ensures forall i | 0 <= i < |ts| :: r[i] == TaskFile(ts[i])
  {
    seq(|ts|, i requires 0 <= i < |ts| => TaskFile(ts[i]))
  }

  /** The fixed files before the feature files: SCHEMA.md only when the
      database step was not skipped. */
  function HeadFiles(approach: Approach): (r: seq<Output>)
    ensures |r| == (if approach != Skip then 7 else 6)
  {
    [PrimeFile, ProjectFile, QuickRefFile, ConventionsFile, ArchitectureFile, StylingFile]
    + (if approach != Skip then [SchemaFile] else [])
  }

  const TAIL_FILES := [ContextStartersFile, ClaudeFile, CursorRulesFile, CopilotFile]

  /** The emission order of `generateAll`. */
  function Emitted(s: ProjectState): (r: seq<Output>)
    ensures |r| == 12 + |s.features| + |s.tasks| + (if s.database.approach != Skip then 1 else 0)
  {
    HeadFiles(s.database.approach)
    + ([FeaturesIndexFile]
    + (FeatureFiles(s.features)
    + ([TasksMasterFile]
    + (TaskFiles(s.tasks)
    + TAIL_FILES))))
  }

  /** `overrides[path] ?? rendered`, then the word count of what is kept. */
  function Finish(o: Output, d: Rendered, overrides: map<string, string>): (r: GeneratedFile)
    ensures r.path == PathOf(o) && r.filename == NameOf(o) && r.category == CategoryFor(o)
    ensures PathOf(o) in overrides ==> r.content == overrides[PathOf(o)]
    ensures PathOf(o) !in overrides ==> r.content == RenderedFor(o, d)
    ensures r.wordCount == WordCount(r.content)
  {
    var p := PathOf(o);
    var content := if p in overrides then overrides[p] else RenderedFor(o, d);
    GeneratedFile(p, NameOf(o), content, WordCount(content), CategoryFor(o))
  }

  /** The file list for already rendered documents. */
  function Assemble(s: ProjectState, d: Rendered): (r: seq<GeneratedFile>)
    ensures |r| == |Emitted(s)|
    ensures forall i | 0 <= i < |r| :: r[i] == Finish(Emitted(s)[i], d, s.markdownOverrides)
  {
    var es := Emitted(s);
    seq(|es|, i requires 0 <= i < |es| => Finish(es[i], d, s.markdownOverrides))
  }

  // ---------------------------------------------------------------------
  // Where each file sits.

  /** The order of the list: PRIME.md, PROJECT.md, the four `docs/` files
      (and SCHEMA.md unless the database step was skipped), the features
      index, one file per feature in state order, the tasks master, one file
      per task in state order, then the context starters and the three AI
      tool configurations. This lemma and the three after it state it part
      by part. */
  lemma HeadOrder(s: ProjectState)
    ensures var e := Emitted(s);
      && e[..6] == [PrimeFile, ProjectFile, QuickRefFile, ConventionsFile, ArchitectureFile, StylingFile]
      && (e[6] == SchemaFile <==> s.database.approach != Skip)
      && e[IndexPos(s)] == FeaturesIndexFile
  {
    var h := HeadFiles(s.database.approach);
    Slices.Front(h, FeaturesIndexFile, FeatureFiles(s.features) + ([TasksMasterFile] + (TaskFiles(s.tasks) + TAIL_FILES)));
    var e := Emitted(s);
    assert e[..6] == e[..|h|][..6];
    assert e[6] == (if |h| == 7 then e[..|h|][6] else FeaturesIndexFile);
  }

  /** Where the features index sits: after the six or seven head files. */
  function IndexPos(s: ProjectState): nat {
    if s.database.approach != Skip then 7 else 6
  }

  /** Where the tasks master sits: after the index and the feature files. */
  function MasterPos(s: ProjectState): nat {
    IndexPos(s) + 1 + |s.features|
  }

  /** Feature `i` of the state has the `i`-th feature file. */
  lemma FeatureOrder(s: ProjectState, i: nat)
    requires i < |s.features|
    ensures IndexPos(s) + 1 + i < |Emitted(s)| && Emitted(s)[IndexPos(s) + 1 + i] == FeatureFile(s.features[i])
  {
    var h, f := HeadFiles(s.database.approach), FeatureFiles(s.features);
    assert IndexPos(s) == |h|;
    Slices.AfterMarker(h, FeaturesIndexFile, f, [TasksMasterFile] + (TaskFiles(s.tasks) + TAIL_FILES), i);
  }

  /** The tasks master follows the feature files, and task `j` of the
      state has the `j`-th task file after it. */
  lemma TaskOrder(s: ProjectState, j: nat)
    requires j < |s.tasks|
    ensures MasterPos(s) + 1 + j < |Emitted(s)|
    ensures Emitted(s)[MasterPos(s)] == TasksMasterFile
    ensures Emitted(s)[MasterPos(s) + 1 + j] == TaskFile(s.tasks[j])
  {
    var h, f, t := HeadFiles(s.database.approach), FeatureFiles(s.features), TaskFiles(s.tasks);
    assert MasterPos(s) == |h| + 1 + |f|;
    Slices.AfterSecondMarker(h, FeaturesIndexFile, f, TasksMasterFile, t, TAIL_FILES, j);
  }

  /** The list ends with the context starters and the three AI tool
      configurations. */
  lemma TailOrder(s: ProjectState)
    ensures var e := Emitted(s);
      e[|e| - 4..] == [ContextStartersFile, ClaudeFile, CursorRulesFile, CopilotFile]
  {
    EndsWith(HeadFiles(s.database.approach), [FeaturesIndexFile], FeatureFiles(s.features),
             [TasksMasterFile], TaskFiles(s.tasks), TAIL_FILES);
  }

  /** The last part of `h + x + f + y + t + l` is `l`. */
  lemma EndsWith<T>(h: seq<T>, x: seq<T>, f: seq<T>, y: seq<T>, t: seq<T>, l: seq<T>)
    ensures var e := h + (x + (f + (y + (t + l))));
      |e| >= |l| && e[|e| - |l|..] == l
  {
    var e := h + (x + (f + (y + (t + l))));
    assert e == (h + x + f + y + t) + l;
  }

  /** A fresh project emits exactly twelve files, whatever the documents
      say: no features, no tasks, and no SCHEMA.md because its database step
      starts out skipped. */
  lemma DefaultStateTwelve(now: string, projectId: string, ids: ColorIds, d: Rendered)
    ensures |Assemble(DefaultState(now, projectId, ids), d)| == 12
  {
  }

  // ---------------------------------------------------------------------
  // Categories and file names.

  /** Reference: the category a path belongs to. The three root documents
      are "root", the folders `docs`, `features` and `tasks` give their own
      category, and everything else is an AI-tool configuration. */
  function CategoryOf(path: string): Category {
    if path == PRIME || path == PROJECT || path == CONTEXT_STARTERS then Root
    else if StartsWith(path, "docs/") then Docs
    else if StartsWith(path, "features/") then Features
    else if StartsWith(path, "tasks/") then Tasks
    else AiConfigs
  }

  /** A path inside one of the three folders is not a root document and
      starts with its folder. */
  lemma InFolder(dir: string, name: string)
    requires dir == "docs" || dir == "features" || dir == "tasks"
    ensures CategoryOf(In(dir, name)) == (if dir == "docs" then Docs else if dir == "features" then Features else Tasks)
  {
    var p := In(dir, name);
    assert p[..|dir| + 1] == dir + "/";
    assert p[0] == dir[0];
    if dir != "docs" {
      assert p[0] != 'd';
    }
    if dir == "tasks" {
      assert p[0] != 'f';
    }
    assert p != PRIME && p != PROJECT && p != CONTEXT_STARTERS by {
      assert p[0] != PRIME[0] && p[0] != CONTEXT_STARTERS[0];
    }
  }

  /** The category tag written with each file is the one its path
      determines. */
  lemma CategoryFollowsPath(o: Output)
    ensures CategoryFor(o) == CategoryOf(PathOf(o))
  {
    match o
    case PrimeFile =>
    case ProjectFile =>
    case ContextStartersFile =>
    case QuickRefFile => InFolder("docs", QUICKREF);
    case ConventionsFile => InFolder("docs", CONVENTIONS);
    case ArchitectureFile => InFolder("docs", ARCHITECTURE);
    case StylingFile => InFolder("docs", STYLING);
    case SchemaFile => InFolder("docs", SCHEMA);
    case FeaturesIndexFile => InFolder("features", FEATURES_INDEX);
    case FeatureFile(f) => InFolder("features", DocPaths.FeatureFile(f));
    case TasksMasterFile => InFolder("tasks", TASKS_MASTER);
    case TaskFile(t) => InFolder("tasks", DocPaths.TaskFile(t));
    case ClaudeFile => AiConfigPath(CLAUDE);
    case CursorRulesFile => AiConfigPath(CURSOR_RULES);
    case CopilotFile => AiConfigPath(In(".github", COPILOT));
  }

  /** The three AI-tool paths are none of the root documents and lie in
      none of the three folders. */
  lemma AiConfigPath(p: string)
    requires p == CLAUDE || p == CURSOR_RULES || p == In(".github", COPILOT)
    ensures CategoryOf(p) == AiConfigs
  {
    assert p[0] == 'C' || p[0] == '.';
    assert |p| > 8;
    if p == CLAUDE {
      assert p[1] == 'L';
      assert PRIME[1] == 'R' && PROJECT[1] == 'R' && CONTEXT_STARTERS[1] == 'O';
    }
  }

  /** So every file of the list carries the category of its path. */
  lemma CategoriesFollowPaths(s: ProjectState, d: Rendered)
    ensures var r := Assemble(s, d);
      forall i | 0 <= i < |r| :: r[i].category == CategoryOf(r[i].path)
  {
    var r := Assemble(s, d);
    forall i | 0 <= i < |r|
      ensures r[i].category == CategoryOf(r[i].path)
    {
      CategoryFollowsPath(Emitted(s)[i]);
    }
  }

  /** A file's name is the last `/` segment of its path, provided a
      feature's slug holds no `/` (a slug typed by hand or loaded from
      storage could). */
  lemma NameIsLastSegment(o: Output)
    requires o.FeatureFile? ==> '/' !in o.f.slug
    ensures NameOf(o) == LastSegment(PathOf(o))
  {
    FixedNamesFlat();
    match o
    case FeatureFile(f) =>
      NoSlashInFeatureFile(f);
      LastSegmentOfJoined("features", DocPaths.FeatureFile(f));
    case TaskFile(t) =>
      LastSegmentOfJoined("tasks", DocPaths.TaskFile(t));
    case _ =>
      LastSegmentOfJoined(Folder(o), NameOf(o));
  }

  /** The folder of each file, "" at the root. */
  function Folder(o: Output): string {
    match o
    case QuickRefFile | ConventionsFile | ArchitectureFile | StylingFile | SchemaFile => "docs"
    case FeaturesIndexFile | FeatureFile(_) => "features"
    case TasksMasterFile | TaskFile(_) => "tasks"
    case CopilotFile => ".github"
    case _ => ""
  }

  lemma NoSlashInFeatureFile(f: Feature)
    requires '/' !in f.slug
    ensures '/' !in DocPaths.FeatureFile(f)
  {
    if f.slug != "" {
      assert DocPaths.FeatureFile(f) == f.slug + ".md";
    }
  }

  /** Every file name of the list is the last segment of its path. */
  lemma FilenamesAreLastSegments(s: ProjectState, d: Rendered)
    requires forall f | f in s.features :: '/' !in f.slug
    ensures var r := Assemble(s, d);
      forall i | 0 <= i < |r| :: r[i].filename == LastSegment(r[i].path)
  {
    var r := Assemble(s, d);
    var e := Emitted(s);
    forall i | 0 <= i < |r|
      ensures r[i].filename == LastSegment(r[i].path)
    {
      if e[i].FeatureFile? {
        FeatureFileFromState(s, i);
      }
      NameIsLastSegment(e[i]);
    }
  }

  /** A feature file of the list is one of the state's features. */
  lemma FeatureFileFromState(s: ProjectState, i: nat)
    requires i < |Emitted(s)| && Emitted(s)[i].FeatureFile?
    ensures Emitted(s)[i].f in s.features
  {
    var e := Emitted(s);
    var h := HeadFiles(s.database.approach);
    var f := FeatureFiles(s.features);
    var t := TaskFiles(s.tasks);
    Slices.Locate(h, FeaturesIndexFile, f, TasksMasterFile, t, TAIL_FILES, i);
  }

  // ---------------------------------------------------------------------
  // Overrides.

  /** Overrides change contents only: with any other override map the list
      has the same length, and every entry the same path, file name and
      category. */
  lemma OverridesOnlyChangeContent(s: ProjectState, d: Rendered, o: map<string, string>)
    ensures var a, b := Assemble(s, d), Assemble(s.(markdownOverrides := o), d);
      |a| == |b| && forall i | 0 <= i < |a| ::
        a[i].path == b[i].path && a[i].filename == b[i].filename && a[i].category == b[i].category
  {
    assert Emitted(s.(markdownOverrides := o)) == Emitted(s);
  }

  /** An override for a path replaces that file's content, even with the
      empty text, and leaves every other file as it was. */
  lemma OverrideReplaces(s: ProjectState, d: Rendered, p: string, text: string)
    ensures var a, b := Assemble(s, d), Assemble(s.(markdownOverrides := s.markdownOverrides[p := text]), d);
      |a| == |b| && forall i | 0 <= i < |a| ::
        && (a[i].path == p ==> b[i].content == text && b[i].wordCount == WordCount(text))
        && (a[i].path != p ==> b[i] == a[i])
  {
    assert Emitted(s.(markdownOverrides := s.markdownOverrides[p := text])) == Emitted(s);
  }

  /** Without overrides every file holds its rendered document. */
  lemma NoOverridesRendered(s: ProjectState, d: Rendered)
    requires s.markdownOverrides == map[]
    ensures var r := Assemble(s, d);
      forall i | 0 <= i < |r| :: r[i].content == RenderedFor(Emitted(s)[i], d)
  {
  }

  // ---------------------------------------------------------------------
  // Paths and links.

  /** The path of a feature's file. */
  lemma FeaturePath(f: Feature)
    ensures PathOf(FeatureFile(f)) == In("features", DocPaths.FeatureFile(f))
  {
  }

  /** The path of a task's file. */
  lemma TaskPath(t: Task)
    ensures PathOf(TaskFile(t)) == In("tasks", DocPaths.TaskFile(t))
  {
    TaskOutputPath(TaskFile(t));
  }

  lemma TaskOutputPath(o: Output)
    requires o.TaskFile?
    ensures PathOf(o) == In("tasks", DocPaths.TaskFile(o.t))
  {
  }

  /** Paths are never made unique: two features with the same slug give two
      files with the same path. */
  lemma SameSlugSamePath(s: ProjectState, i: nat, j: nat)
    requires i < j < |s.features| && s.features[i].slug == s.features[j].slug
    ensures IndexPos(s) + 1 + j < |Emitted(s)|
    ensures PathOf(Emitted(s)[IndexPos(s) + 1 + i]) == PathOf(Emitted(s)[IndexPos(s) + 1 + j])
  {
    FeatureOrder(s, i);
    FeatureOrder(s, j);
    FeaturePath(s.features[i]);
    FeaturePath(s.features[j]);
  }

  /** Tasks with distinct, non-negative numbers get distinct paths. */
  lemma TaskPathsDistinct(a: Task, b: Task)
    requires a.taskNumber >= 0 && b.taskNumber >= 0 && a.taskNumber != b.taskNumber
    ensures PathOf(TaskFile(a)) != PathOf(TaskFile(b))
  {
    TaskPath(a);
    TaskPath(b);
    TasksPathsDiffer(a, b);
  }

  lemma TasksPathsDiffer(a: Task, b: Task)
    requires a.taskNumber >= 0 && b.taskNumber >= 0 && a.taskNumber != b.taskNumber
    ensures In("tasks", DocPaths.TaskFile(a)) != In("tasks", DocPaths.TaskFile(b))
  {
    var x, y := DocPaths.TaskFile(a), DocPaths.TaskFile(b);
    TaskFilesDistinct(a, b);
    assert In("tasks", x)[6..] == x;
    assert In("tasks", y)[6..] == y;
  }

  /** How a relative markdown link in a file of folder `dir` resolves:
      `../` climbs to the root, anything else stays in `dir`. */
  function Resolve(dir: string, link: string): string {
    if StartsWith(link, "../") then link[3..] else In(dir, link)
  }

  /** A link with no `/` stays in the folder. */
  lemma ResolveStays(dir: string, name: string)
    requires '/' !in name
    ensures Resolve(dir, name) == In(dir, name)
  {
    assert !StartsWith(name, "../") by {
      if |name| >= 3 {
        assert name[2] != '/';
      }
    }
  }

  /** `../tasks/name` from `features/` reaches `tasks/name`. */
  lemma UpToTasks(name: string)
    ensures Resolve("features", "../tasks/" + name) == In("tasks", name)
  {
    var link := "../tasks/" + name;
    assert link[..3] == "../";
    assert link[3..] == "tasks/" + name;
  }

  /** `../features/name` from `tasks/` reaches `features/name`. */
  lemma UpToFeatures(name: string)
    ensures Resolve("tasks", "../features/" + name) == In("features", name)
  {
    var link := "../features/" + name;
    assert link[..3] == "../";
    assert link[3..] == "features/" + name;
  }

  /** The task links reach the task's file: a feature's Related Tasks entry
      (`../tasks/<file>`) and the master list's row (`<file>`). */
  lemma TaskLinksResolve(t: Task)
    ensures Resolve("features", "../tasks/" + DocPaths.TaskFile(t)) == PathOf(TaskFile(t))
    ensures Resolve("tasks", DocPaths.TaskFile(t)) == PathOf(TaskFile(t))
  {
    TaskPath(t);
    UpToTasks(DocPaths.TaskFile(t));
    ResolveStays("tasks", DocPaths.TaskFile(t));
  }

  /** The feature links reach the feature's file: a task's Related Features
      entry (`../features/<file>`) and the index row (`<file>`). */
  lemma FeatureLinksResolve(f: Feature)
    requires '/' !in f.slug
    ensures Resolve("tasks", "../features/" + DocPaths.FeatureFile(f)) == PathOf(FeatureFile(f))
    ensures Resolve("features", DocPaths.FeatureFile(f)) == PathOf(FeatureFile(f))
  {
    FeaturePath(f);
    NoSlashInFeatureFile(f);
    UpToFeatures(DocPaths.FeatureFile(f));
    ResolveStays("features", DocPaths.FeatureFile(f));
  }

  /** The footers reach the index files of their own folder and PROJECT.md. */
  lemma FooterLinksResolve()
    ensures Resolve("features", FEATURES_INDEX) == PathOf(FeaturesIndexFile)
    ensures Resolve("tasks", TASKS_MASTER) == PathOf(TasksMasterFile)
    ensures Resolve("features", "../" + PROJECT) == PROJECT
  {
    FixedNamesFlat();
    ResolveStays("features", FEATURES_INDEX);
    ResolveStays("tasks", TASKS_MASTER);
    var link := "../" + PROJECT;
    assert link[..3] == "../" && link[3..] == PROJECT;
  }
}

/** `generateAll(state)`: every renderer applied to the state, then the
    assembly. */
module Generator {
  import opened Text
  import opened Project
  import opened ConventionCatalog
  import opened FeaturesMd
  import opened TasksMd
  import opened ConventionsMd
  import opened ArchitectureMd
  import opened StylingMd
  import opened SchemaMd
  import opened Assembler

  function FeatureText(f: Feature, ts: seq<Task>): string {
    Join(FeatureLines(f, ts), "\n")
  }

  function TaskText(t: Task, fs: seq<Feature>): string {
    Join(TaskLines(t, fs), "\n")
  }

  /** Every document, rendered from the state; the ones outside this model
      come from `ext`, the conventions from the catalog `cat`. */
  function Render(s: ProjectState, ext: External, cat: Catalog): Rendered {
    var all := AllConventionQuestions(cat);
    Rendered(ext.prime, ext.project, QuickRefText(all, s.conventions), ConventionsText(all, s.conventions),
             ArchitectureText(s), StylingText(s), SchemaText(s), FeaturesIndexText(s),
             f => FeatureText(f, s.tasks), TasksMasterText(s), t => TaskText(t, s.features),
             ext.contextStarters, ext.claude, ext.cursorRules, ext.copilot)
  }

  /** `generateAll(state)` */
  function GenerateAll(s: ProjectState, ext: External, cat: Catalog): seq<GeneratedFile> {
    Assembler.Assemble(s, Render(s, ext, cat))
  }
}
