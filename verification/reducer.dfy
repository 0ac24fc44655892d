/** `projectReducer` of contexts/project-context.tsx: every action the wizard
    dispatches, as a pure transition of the project state. The clock reading
    and the random ids of a reset are parameters. */
module Reducer {
  import opened Wrappers
  import opened Project

  // ---------------------------------------------------------------------
  // Partial payloads: `{ ...x, ...payload }` keeps every field the payload
  // does not carry (None) and takes every field it does carry (Some).

  datatype IdentityPatch = IdentityPatch(
    name: Option<string>,
    slug: Option<string>,
    purpose: Option<string>,
    techStack: Option<TechStack>,
    projectMode: Option<ProjectMode>,
    existingFolderTree: Option<string>,
    existingSchema: Option<string>)

  datatype ArchitecturePatch = ArchitecturePatch(appType: Option<string>, layers: Option<seq<Layer>>)

  datatype StylingPatch = StylingPatch(
    colors: Option<seq<BrandColor>>,
    fonts: Option<Fonts>,
    componentLibrary: Option<string>,
    logoDataUrl: Option<Option<string>>,
    additionalNotes: Option<string>)

  datatype ConventionsPatch = ConventionsPatch(decisions: Option<seq<Decision>>, customConventions: Option<string>)

  datatype DatabasePatch = DatabasePatch(
    approach: Option<Approach>,
    plainEnglishDescription: Option<string>,
    pastedSchema: Option<string>,
    tables: Option<seq<Table>>)

  datatype FeaturePatch = FeaturePatch(
    id: Option<string>,
    name: Option<string>,
    slug: Option<string>,
    description: Option<string>,
    businessRules: Option<seq<string>>,
    acceptanceCriteria: Option<seq<string>>,
    relatedTables: Option<seq<string>>,
    sortOrder: Option<int>)

  datatype TaskPatch = TaskPatch(
    id: Option<string>,
    taskNumber: Option<int>,
    name: Option<string>,
    featureIds: Option<seq<string>>,
    definitionOfDone: Option<string>,
    fileBoundaries: Option<string>,
    outOfScope: Option<Option<string>>,
    status: Option<Option<TaskStatus>>,
    sortOrder: Option<int>)

  datatype DeploymentPatch = DeploymentPatch(enabled: Option<bool>, skeletonStructure: Option<string>, notes: Option<string>)

  function MergeIdentity(x: Identity, p: IdentityPatch): Identity {
    Identity(p.name.GetOr(x.name), p.slug.GetOr(x.slug), p.purpose.GetOr(x.purpose),
             p.techStack.GetOr(x.techStack), p.projectMode.GetOr(x.projectMode),
             p.existingFolderTree.GetOr(x.existingFolderTree), p.existingSchema.GetOr(x.existingSchema))
  }

  function MergeArchitecture(x: Architecture, p: ArchitecturePatch): Architecture {
    Architecture(p.appType.GetOr(x.appType), p.layers.GetOr(x.layers))
  }

  function MergeStyling(x: Styling, p: StylingPatch): Styling {
    Styling(p.colors.GetOr(x.colors), p.fonts.GetOr(x.fonts), p.componentLibrary.GetOr(x.componentLibrary),
            p.logoDataUrl.GetOr(x.logoDataUrl), p.additionalNotes.GetOr(x.additionalNotes))
  }

  function MergeConventions(x: Conventions, p: ConventionsPatch): Conventions {
    Conventions(p.decisions.GetOr(x.decisions), p.customConventions.GetOr(x.customConventions))
  }

  function MergeDatabase(x: Database, p: DatabasePatch): Database {
    Database(p.approach.GetOr(x.approach), p.plainEnglishDescription.GetOr(x.plainEnglishDescription),
             p.pastedSchema.GetOr(x.pastedSchema), p.tables.GetOr(x.tables))
  }

  function MergeFeature(x: Feature, p: FeaturePatch): Feature {
    Feature(p.id.GetOr(x.id), p.name.GetOr(x.name), p.slug.GetOr(x.slug), p.description.GetOr(x.description),
            p.businessRules.GetOr(x.businessRules), p.acceptanceCriteria.GetOr(x.acceptanceCriteria),
            p.relatedTables.GetOr(x.relatedTables), p.sortOrder.GetOr(x.sortOrder))
  }

  function MergeTask(x: Task, p: TaskPatch): Task {
    Task(p.id.GetOr(x.id), p.taskNumber.GetOr(x.taskNumber), p.name.GetOr(x.name),
         p.featureIds.GetOr(x.featureIds), p.definitionOfDone.GetOr(x.definitionOfDone),
         p.fileBoundaries.GetOr(x.fileBoundaries), p.outOfScope.GetOr(x.outOfScope),
         p.status.GetOr(x.status), p.sortOrder.GetOr(x.sortOrder))
  }

  function MergeDeployment(x: Deployment, p: DeploymentPatch): Deployment {
    Deployment(p.enabled.GetOr(x.enabled), p.skeletonStructure.GetOr(x.skeletonStructure), p.notes.GetOr(x.notes))
  }

  /** The patch that carries every field of `y`. */
  function FullFeaturePatch(y: Feature): FeaturePatch {
    FeaturePatch(Some(y.id), Some(y.name), Some(y.slug), Some(y.description), Some(y.businessRules),
                 Some(y.acceptanceCriteria), Some(y.relatedTables), Some(y.sortOrder))
  }

  /** The patch that carries only the fields of `q`, or else of `p`. */
  function ThenFeature(p: FeaturePatch, q: FeaturePatch): FeaturePatch {
    FeaturePatch(Then(p.id, q.id), Then(p.name, q.name), Then(p.slug, q.slug), Then(p.description, q.description),
                 Then(p.businessRules, q.businessRules), Then(p.acceptanceCriteria, q.acceptanceCriteria),
                 Then(p.relatedTables, q.relatedTables), Then(p.sortOrder, q.sortOrder))
  }

  /** `{ ...p, ...q }` for one field. */
  function Then<T>(p: Option<T>, q: Option<T>): (r: Option<T>)
    ensures r.Some? <==> p.Some? || q.Some?
  {
    if q.Some? then q else p
  }

  /** A shallow merge is a right action of patch composition: merging `p`
      and then `q` is merging their composition once; a patch with no
      fields changes nothing and a patch with every field replaces the
      record. */
  lemma FeatureMergeLaws(x: Feature, y: Feature, p: FeaturePatch, q: FeaturePatch)
    ensures MergeFeature(MergeFeature(x, p), q) == MergeFeature(x, ThenFeature(p, q))
    ensures MergeFeature(x, FeaturePatch(None, None, None, None, None, None, None, None)) == x
    ensures MergeFeature(x, FullFeaturePatch(y)) == y
    ensures MergeFeature(MergeFeature(x, p), p) == MergeFeature(x, p)
  {
  }

  // ---------------------------------------------------------------------
  // Lists keyed by id

  function FeatureId(f: Feature): string { f.id }
  function TaskId(t: Task): string { t.id }

  /** The number of elements whose key is `id`. */
  function Count<T>(xs: seq<T>, key: T -> string, id: string): (n: nat)
    ensures n <= |xs|
    ensures n == 0 <==> forall i | 0 <= i < |xs| :: key(xs[i]) != id
  {
    if xs == [] then 0 else (if key(xs[0]) == id then 1 else 0) + Count(xs[1..], key, id)
  }

  /** `xs.filter((x) => x.id !== id)` */
  function Without<T>(xs: seq<T>, key: T -> string, id: string): (r: seq<T>)
    ensures |r| + Count(xs, key, id) == |xs|
    ensures forall i | 0 <= i < |r| :: key(r[i]) != id
    ensures forall i | 0 <= i < |xs| && key(xs[i]) != id :: xs[i] in r
    ensures forall i | 0 <= i < |r| :: r[i] in xs
  {
    if xs == [] then []
    else if key(xs[0]) == id then Without(xs[1..], key, id)
    else [xs[0]] + Without(xs[1..], key, id)
  }

  /** Removing keeps the order of what stays: it distributes over
      concatenation. */
  lemma {:induction false} WithoutAppend<T>(xs: seq<T>, ys: seq<T>, key: T -> string, id: string)
    ensures Without(xs + ys, key, id) == Without(xs, key, id) + Without(ys, key, id)
  {
    if xs == [] {
      assert xs + ys == ys;
    } else {
      var zs := xs + ys;
      assert zs[0] == xs[0] && zs[1..] == xs[1..] + ys;
      WithoutAppend(xs[1..], ys, key, id);
      if key(xs[0]) != id {
        calc {
          Without(zs, key, id);
          [xs[0]] + Without(xs[1..] + ys, key, id);
          [xs[0]] + (Without(xs[1..], key, id) + Without(ys, key, id));
          ([xs[0]] + Without(xs[1..], key, id)) + Without(ys, key, id);
        }
      }
    }
  }

  /** Removing an id nobody has changes nothing, and removing twice is
      removing once. */
  lemma WithoutAbsent<T>(xs: seq<T>, key: T -> string, id: string)
    ensures Count(xs, key, id) == 0 ==> Without(xs, key, id) == xs
    ensures Without(Without(xs, key, id), key, id) == Without(xs, key, id)
  {
    var r := Without(xs, key, id);
    assert Count(r, key, id) == 0;
    if Count(xs, key, id) == 0 {
      assert |r| == |xs|;
      WithoutNoMatch(xs, key, id);
    }
    WithoutNoMatch(r, key, id);
  }

  lemma {:induction false} WithoutNoMatch<T>(xs: seq<T>, key: T -> string, id: string)
    requires forall i | 0 <= i < |xs| :: key(xs[i]) != id
    ensures Without(xs, key, id) == xs
  {
    if xs != [] {
      WithoutNoMatch(xs[1..], key, id);
    }
  }

  /** `xs.map((x) => x.id === id ? { ...x, ...updates } : x)` */
  function UpdateById<T, P>(xs: seq<T>, key: T -> string, id: string, merge: (T, P) -> T, p: P): (r: seq<T>)
    ensures |r| == |xs|
    ensures forall i | 0 <= i < |xs| :: r[i] == (if key(xs[i]) == id then merge(xs[i], p) else xs[i])
  {
    if xs == [] then []
    else [if key(xs[0]) == id then merge(xs[0], p) else xs[0]] + UpdateById(xs[1..], key, id, merge, p)
  }

  /** Updating an element and then removing its id is removing it, as long
      as the update keeps every id. */
  lemma {:induction false} UpdateThenRemove<T, P>(xs: seq<T>, key: T -> string, id: string, merge: (T, P) -> T, p: P)
    requires forall i | 0 <= i < |xs| :: key(merge(xs[i], p)) == key(xs[i])
    ensures Without(UpdateById(xs, key, id, merge, p), key, id) == Without(xs, key, id)
  {
    if xs != [] {
      var u := UpdateById(xs, key, id, merge, p);
      assert u[1..] == UpdateById(xs[1..], key, id, merge, p);
      UpdateThenRemove(xs[1..], key, id, merge, p);
    }
  }

  // ---------------------------------------------------------------------
  // The reducer

  datatype Action =
    | SetIdentity(identityPatch: IdentityPatch)
    | SetArchitecture(architecturePatch: ArchitecturePatch)
    | SetStyling(stylingPatch: StylingPatch)
    | SetConventions(conventionsPatch: ConventionsPatch)
    | SetDatabase(databasePatch: DatabasePatch)
    | AddFeature(feature: Feature)
    | UpdateFeature(featureId: string, featureUpdates: FeaturePatch)
    | RemoveFeature(removedFeature: string)
    | ReorderFeatures(featureOrder: seq<Feature>)
    | AddTask(task: Task)
    | UpdateTask(taskId: string, taskUpdates: TaskPatch)
    | RemoveTask(removedTask: string)
    | ReorderTasks(taskOrder: seq<Task>)
    | SetStep(step: int)
    | SetMarkdownOverride(key: string, value: string)
    | SetDeployment(deploymentPatch: DeploymentPatch)
    | LoadState(loaded: ProjectState)
    | ResetProject
    /** A `type` outside the union, which the `default` branch handles. */
    | Unrecognised(kind: string)

  /** What `createDefaultProjectState` draws from the clock and from
      `crypto.randomUUID` when the project is reset. */
  datatype Fresh = Fresh(now: string, projectId: string, colorIds: ColorIds)

  /** `projectReducer(state, action)` with `new Date().toISOString()` read
      as `now`. */
  function Reduce(s: ProjectState, a: Action, now: string, seed: Fresh): ProjectState {
    var touched := s.meta.(updatedAt := now);
    match a
    case SetIdentity(p) => s.(identity := MergeIdentity(s.identity, p), meta := touched)
    case SetArchitecture(p) => s.(architecture := MergeArchitecture(s.architecture, p), meta := touched)
    case SetStyling(p) => s.(styling := MergeStyling(s.styling, p), meta := touched)
    case SetConventions(p) => s.(conventions := MergeConventions(s.conventions, p), meta := touched)
    case SetDatabase(p) => s.(database := MergeDatabase(s.database, p), meta := touched)
    case AddFeature(f) => s.(features := s.features + [f], meta := touched)
    case UpdateFeature(id, p) =>
      s.(features := UpdateById(s.features, FeatureId, id, MergeFeature, p), meta := touched)
    case RemoveFeature(id) => s.(features := Without(s.features, FeatureId, id), meta := touched)
    case ReorderFeatures(fs) => s.(features := fs, meta := touched)
    case AddTask(t) => s.(tasks := s.tasks + [t], meta := touched)
    case UpdateTask(id, p) => s.(tasks := UpdateById(s.tasks, TaskId, id, MergeTask, p), meta := touched)
    case RemoveTask(id) => s.(tasks := Without(s.tasks, TaskId, id), meta := touched)
    case ReorderTasks(ts) => s.(tasks := ts, meta := touched)
    case SetStep(n) =>
      s.(meta := s.meta.(currentStep := n, highestStepReached := Max(s.meta.highestStepReached, n), updatedAt := now))
    case SetMarkdownOverride(k, v) => s.(markdownOverrides := s.markdownOverrides[k := v], meta := touched)
    case SetDeployment(p) => s.(deployment := MergeDeployment(s.deployment, p), meta := touched)
    case LoadState(loaded) => loaded
    case ResetProject => DefaultState(seed.now, seed.projectId, seed.colorIds)
    case Unrecognised(_) => s
  }

  /** `Math.max(a, b)` */
  function Max(a: int, b: int): (m: int)
    ensures m >= a && m >= b && (m == a || m == b)
  {
    if a >= b then a else b
  }

  // ---------------------------------------------------------------------
  // Frame conditions

  /** The part of the state an editing action writes. */
  datatype Slice =
    | IdentitySlice | ArchitectureSlice | StylingSlice | ConventionsSlice | DatabaseSlice
    | FeaturesSlice | TasksSlice | OverridesSlice | DeploymentSlice

  /** Editing actions: all but SET_STEP, LOAD_STATE, RESET_PROJECT and an
      unrecognised type. */
  predicate IsEdit(a: Action) {
    !a.SetStep? && !a.LoadState? && !a.ResetProject? && !a.Unrecognised?
  }

  function SliceOf(a: Action): Slice
    requires IsEdit(a)
  {
    match a
    case SetIdentity(_) => IdentitySlice
    case SetArchitecture(_) => ArchitectureSlice
    case SetStyling(_) => StylingSlice
    case SetConventions(_) => ConventionsSlice
    case SetDatabase(_) => DatabaseSlice
    case AddFeature(_) => FeaturesSlice
    case UpdateFeature(_, _) => FeaturesSlice
    case RemoveFeature(_) => FeaturesSlice
    case ReorderFeatures(_) => FeaturesSlice
    case AddTask(_) => TasksSlice
    case UpdateTask(_, _) => TasksSlice
    case RemoveTask(_) => TasksSlice
    case ReorderTasks(_) => TasksSlice
    case SetMarkdownOverride(_, _) => OverridesSlice
    case SetDeployment(_) => DeploymentSlice
  }

  /** `r` equals `s` on every slice but `k`. */
  predicate SameOutside(s: ProjectState, r: ProjectState, k: Slice) {
    (k != IdentitySlice ==> r.identity == s.identity)
    && (k != ArchitectureSlice ==> r.architecture == s.architecture)
    && (k != StylingSlice ==> r.styling == s.styling)
    && (k != ConventionsSlice ==> r.conventions == s.conventions)
    && (k != DatabaseSlice ==> r.database == s.database)
    && (k != FeaturesSlice ==> r.features == s.features)
    && (k != TasksSlice ==> r.tasks == s.tasks)
    && (k != OverridesSlice ==> r.markdownOverrides == s.markdownOverrides)
    && (k != DeploymentSlice ==> r.deployment == s.deployment)
  }

  /** An editing action writes its one slice and stamps `updatedAt`; every
      other slice and every other field of `meta` stay as they were. In
      particular removing a feature never touches the tasks that link to
      it. */
  lemma EditFrame(s: ProjectState, a: Action, now: string, seed: Fresh)
    requires IsEdit(a)
    ensures SameOutside(s, Reduce(s, a, now, seed), SliceOf(a))
    ensures Reduce(s, a, now, seed).meta == s.meta.(updatedAt := now)
  {
  }

  /** SET_STEP moves to the requested step, and `highestStepReached` never
      decreases and is at least the current step afterwards. Nothing but
      `meta` changes. */
  lemma StepFacts(s: ProjectState, n: int, now: string, seed: Fresh)
    ensures var r := Reduce(s, SetStep(n), now, seed);
      r.meta.currentStep == n
      && r.meta.highestStepReached >= s.meta.highestStepReached
      && r.meta.highestStepReached >= r.meta.currentStep
      && (r.meta.highestStepReached == s.meta.highestStepReached || r.meta.highestStepReached == n)
      && r.meta.id == s.meta.id && r.meta.createdAt == s.meta.createdAt && r.meta.version == s.meta.version
      && r.meta.updatedAt == now
      && r == s.(meta := r.meta)
  {
  }

  /** The furthest step reached, as a function of the SET_STEP payloads
      seen since a state with furthest step `h`. */
  function Furthest(h: int, steps: seq<int>): (m: int)
    ensures m >= h
    ensures forall i | 0 <= i < |steps| :: m >= steps[i]
    decreases |steps|
  {
    if steps == [] then h else Furthest(Max(h, steps[0]), steps[1..])
  }

  /** The result of dispatching SET_STEP once per payload, in order. */
  function Steps(s: ProjectState, steps: seq<int>, now: string, seed: Fresh): ProjectState
    decreases |steps|
  {
    if steps == [] then s else Steps(Reduce(s, SetStep(steps[0]), now, seed), steps[1..], now, seed)
  }

  /** After any run of SET_STEP, `highestStepReached` is the largest step
      ever requested (or the furthest step before the run), and the current
      step is the last one requested. */
  lemma {:induction false} StepsReachFurthest(s: ProjectState, steps: seq<int>, now: string, seed: Fresh)
    requires steps != []
    ensures Steps(s, steps, now, seed).meta.highestStepReached == Furthest(s.meta.highestStepReached, steps)
    ensures Steps(s, steps, now, seed).meta.currentStep == steps[|steps| - 1]
    decreases |steps|
  {
    var s1 := Reduce(s, SetStep(steps[0]), now, seed);
    if |steps| > 1 {
      StepsReachFurthest(s1, steps[1..], now, seed);
    }
  }

  /** The step counters the wizard relies on: the current step never lies
      beyond the furthest step reached. */
  predicate StepsConsistent(s: ProjectState) {
    s.meta.currentStep <= s.meta.highestStepReached
  }

  /** Every action but LOAD_STATE keeps the step counters consistent, and
      LOAD_STATE does when the loaded state is. No action but LOAD_STATE and
      RESET_PROJECT lowers the furthest step reached. */
  lemma StepsStayConsistent(s: ProjectState, a: Action, now: string, seed: Fresh)
    requires StepsConsistent(s)
    requires a.LoadState? ==> StepsConsistent(a.loaded)
    ensures StepsConsistent(Reduce(s, a, now, seed))
    ensures !a.LoadState? && !a.ResetProject?
      ==> Reduce(s, a, now, seed).meta.highestStepReached >= s.meta.highestStepReached
  {
  }

  /** ADD_FEATURE appends at the end and keeps every existing feature in
      place. */
  lemma AddFeatureAppends(s: ProjectState, f: Feature, now: string, seed: Fresh)
    ensures var r := Reduce(s, AddFeature(f), now, seed);
      |r.features| == |s.features| + 1 && r.features[|s.features|] == f
      && r.features[..|s.features|] == s.features
  {
    var r := Reduce(s, AddFeature(f), now, seed);
    assert r.features[..|s.features|] == s.features;
  }

  /** ADD_TASK appends at the end and keeps every existing task in place. */
  lemma AddTaskAppends(s: ProjectState, t: Task, now: string, seed: Fresh)
    ensures var r := Reduce(s, AddTask(t), now, seed);
      |r.tasks| == |s.tasks| + 1 && r.tasks[|s.tasks|] == t
      && r.tasks[..|s.tasks|] == s.tasks
  {
    var r := Reduce(s, AddTask(t), now, seed);
    assert r.tasks[..|s.tasks|] == s.tasks;
  }

  /** UPDATE_FEATURE merges the updates into the features with the id and
      leaves the length, the order and every other feature as they were. */
  lemma UpdateFeatureFacts(s: ProjectState, id: string, p: FeaturePatch, now: string, seed: Fresh)
    ensures var r := Reduce(s, UpdateFeature(id, p), now, seed);
      |r.features| == |s.features|
      && (forall i | 0 <= i < |s.features| && s.features[i].id == id :: r.features[i] == MergeFeature(s.features[i], p))
      && (forall i | 0 <= i < |s.features| && s.features[i].id != id :: r.features[i] == s.features[i])
  {
  }

  /** UPDATE_TASK merges the updates into the tasks with the id and leaves
      the length, the order and every other task as they were. */
  lemma UpdateTaskFacts(s: ProjectState, id: string, p: TaskPatch, now: string, seed: Fresh)
    ensures var r := Reduce(s, UpdateTask(id, p), now, seed);
      |r.tasks| == |s.tasks|
      && (forall i | 0 <= i < |s.tasks| && s.tasks[i].id == id :: r.tasks[i] == MergeTask(s.tasks[i], p))
      && (forall i | 0 <= i < |s.tasks| && s.tasks[i].id != id :: r.tasks[i] == s.tasks[i])
  {
  }

  /** REMOVE_FEATURE drops every feature with the id, keeps every other one,
      and leaves the tasks alone, so task links to the removed feature
      dangle. */
  lemma RemoveFeatureFacts(s: ProjectState, id: string, now: string, seed: Fresh)
    ensures var r := Reduce(s, RemoveFeature(id), now, seed);
      (forall i | 0 <= i < |r.features| :: r.features[i].id != id)
      && (forall i | 0 <= i < |s.features| && s.features[i].id != id :: s.features[i] in r.features)
      && |r.features| == |s.features| - Count(s.features, FeatureId, id)
      && r.tasks == s.tasks
  {
    var r := Reduce(s, RemoveFeature(id), now, seed);
    assert forall i | 0 <= i < |r.features| :: FeatureId(r.features[i]) != id;
    assert forall i | 0 <= i < |s.features| && s.features[i].id != id :: FeatureId(s.features[i]) != id;
  }

  /** REMOVE_TASK drops every task with the id and keeps every other one. */
  lemma RemoveTaskFacts(s: ProjectState, id: string, now: string, seed: Fresh)
    ensures var r := Reduce(s, RemoveTask(id), now, seed);
      (forall i | 0 <= i < |r.tasks| :: r.tasks[i].id != id)
      && (forall i | 0 <= i < |s.tasks| && s.tasks[i].id != id :: s.tasks[i] in r.tasks)
      && |r.tasks| == |s.tasks| - Count(s.tasks, TaskId, id)
      && r.features == s.features
  {
    var r := Reduce(s, RemoveTask(id), now, seed);
    assert forall i | 0 <= i < |r.tasks| :: TaskId(r.tasks[i]) != id;
    assert forall i | 0 <= i < |s.tasks| && s.tasks[i].id != id :: TaskId(s.tasks[i]) != id;
  }

  /** Removing a feature after updating it (with updates that keep its id)
      leaves the same features as removing it straight away. */
  lemma UpdateThenRemoveFeature(s: ProjectState, id: string, p: FeaturePatch, now: string, seed: Fresh)
    requires p.id.None?
    ensures Reduce(Reduce(s, UpdateFeature(id, p), now, seed), RemoveFeature(id), now, seed)
         == Reduce(s, RemoveFeature(id), now, seed)
  {
    UpdateThenRemove(s.features, FeatureId, id, MergeFeature, p);
  }

  /** SET_MARKDOWN_OVERRIDE sets exactly one key: the key now maps to the
      value and every other key keeps its presence and its value. */
  lemma OverrideFacts(s: ProjectState, k: string, v: string, now: string, seed: Fresh)
    ensures var o := Reduce(s, SetMarkdownOverride(k, v), now, seed).markdownOverrides;
      k in o && o[k] == v
      && o.Keys == s.markdownOverrides.Keys + {k}
      && (forall j | j in s.markdownOverrides && j != k :: o[j] == s.markdownOverrides[j])
  {
  }

  /** REORDER_* replace the list wholesale, LOAD_STATE returns its payload
      and an unrecognised action returns the state unchanged. */
  lemma WholesaleFacts(s: ProjectState, fs: seq<Feature>, ts: seq<Task>, loaded: ProjectState, kind: string, now: string, seed: Fresh)
    ensures Reduce(s, ReorderFeatures(fs), now, seed).features == fs
    ensures Reduce(s, ReorderTasks(ts), now, seed).tasks == ts
    ensures Reduce(s, LoadState(loaded), now, seed) == loaded
    ensures Reduce(s, Unrecognised(kind), now, seed) == s
  {
  }

  /** RESET_PROJECT discards everything and starts a default project at
      step 1 with the fresh project id. */
  lemma ResetFacts(s: ProjectState, now: string, seed: Fresh)
    ensures var r := Reduce(s, ResetProject, now, seed);
      r.features == [] && r.tasks == [] && r.markdownOverrides == map[]
      && r.meta.currentStep == 1 && r.meta.highestStepReached == 1
      && r.meta.id == seed.projectId && r.meta.createdAt == seed.now
  {
    var d := DefaultState(seed.now, seed.projectId, seed.colorIds);
    assert Reduce(s, ResetProject, now, seed) == d;
  }

  /** A SET_<slice> action with an empty payload changes nothing but the
      `updatedAt` stamp. */
  lemma EmptyPatchOnlyStamps(s: ProjectState, now: string, seed: Fresh)
    ensures Reduce(s, SetIdentity(IdentityPatch(None, None, None, None, None, None, None)), now, seed)
         == s.(meta := s.meta.(updatedAt := now))
    ensures Reduce(s, SetDatabase(DatabasePatch(None, None, None, None)), now, seed)
         == s.(meta := s.meta.(updatedAt := now))
    ensures Reduce(s, SetStyling(StylingPatch(None, None, None, None, None)), now, seed)
         == s.(meta := s.meta.(updatedAt := now))
  {
  }
}
