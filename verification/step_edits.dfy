/** The edits the wizard's step screens compute before they dispatch
    (the screens under components/wizard/steps): each is the action it dispatches, or
    None when the control is disabled or the event is ignored. */
module StepEdits {
  import opened Wrappers
  import opened Project
  import opened Slug
  import opened SmartDefaults
  import Reducer

  // ---------------------------------------------------------------------
  // Generic list edits

  /** `[...xs]` with `updated[i] = v`; the screen passes only indices of
      rendered rows. */
  function SetAt<T>(xs: seq<T>, i: nat, v: T): (r: seq<T>)
    requires i < |xs|
    ensures |r| == |xs| && r[i] == v
    ensures forall k | 0 <= k < |xs| && k != i :: r[k] == xs[k]
  {
    xs[i := v]
  }

  /** `xs.filter((_, k) => k !== i)`: an index outside the list removes
      nothing. */
  function RemoveAt<T>(xs: seq<T>, i: int): (r: seq<T>)
    ensures 0 <= i < |xs| ==> |r| == |xs| - 1
    ensures !(0 <= i < |xs|) ==> r == xs
    ensures forall k | 0 <= k < |r| :: r[k] == (if 0 <= i <= k then xs[k + 1] else xs[k])
  {
    if 0 <= i < |xs| then xs[..i] + xs[i + 1..] else xs
  }

  /** Adding a row and removing it again restores the list. */
  lemma AddThenRemove<T>(xs: seq<T>, v: T)
    ensures RemoveAt(xs + [v], |xs|) == xs
  {
    assert (xs + [v])[..|xs|] == xs;
  }

  /** `xs.includes(x) ? xs.filter((y) => y !== x) : [...xs, x]` */
  function Toggle<T(==,!new)>(xs: seq<T>, x: T): (r: seq<T>)
    ensures x in r <==> x !in xs
    ensures forall y | y != x :: y in r <==> y in xs
    ensures x !in xs ==> r == xs + [x]
  {
    if x in xs then Drop(xs, x) else xs + [x]
  }

  /** `xs.filter((y) => y !== x)` */
  function Drop<T(==,!new)>(xs: seq<T>, x: T): (r: seq<T>)
    ensures x !in r
    ensures forall y | y != x :: y in r <==> y in xs
    ensures x !in xs ==> r == xs
  {
    if xs == [] then []
    else if xs[0] == x then Drop(xs[1..], x)
    else [xs[0]] + Drop(xs[1..], x)
  }

  /** Toggling twice restores a list that does not hold the element, and
      leaves a list that does with exactly one copy, moved to the end. */
  lemma ToggleTwice<T(!new)>(xs: seq<T>, x: T)
    ensures x !in xs ==> Toggle(Toggle(xs, x), x) == xs
    ensures x in xs ==> Toggle(Toggle(xs, x), x) == Drop(xs, x) + [x]
  {
    if x !in xs {
      DropAppended(xs, x);
    }
  }

  lemma {:induction false} DropAppended<T(!new)>(xs: seq<T>, x: T)
    requires x !in xs
    ensures Drop(xs + [x], x) == xs
  {
    if xs != [] {
      assert (xs + [x])[1..] == xs[1..] + [x];
      DropAppended(xs[1..], x);
    }
  }

  /** A list is the element at `i` plus the rest. */
  lemma MultisetSplit<T>(xs: seq<T>, i: nat)
    requires i < |xs|
    ensures multiset(xs) == multiset(RemoveAt(xs, i)) + multiset{xs[i]}
  {
    assert xs == xs[..i] + [xs[i]] + xs[i + 1..];
  }

  /** `arrayMove(xs, from, to)`: take the element at `from` out and insert
      it at `to`. */
  function Move<T>(xs: seq<T>, from: nat, to: nat): (r: seq<T>)
    requires from < |xs| && to < |xs|
    ensures |r| == |xs| && r[to] == xs[from]
    ensures RemoveAt(r, to) == RemoveAt(xs, from)
    ensures multiset(r) == multiset(xs)
  {
    var rest := RemoveAt(xs, from);
    var r := rest[..to] + [xs[from]] + rest[to..];
    assert RemoveAt(r, to) == rest by {
      assert r[..to] == rest[..to] && r[to + 1..] == rest[to..];
    }
    MultisetSplit(r, to);
    MultisetSplit(xs, from);
    r
  }

  /** `xs.map(f)` */
  function MapSeq<T, U>(xs: seq<T>, f: T -> U): (r: seq<U>)
    ensures |r| == |xs| && forall i | 0 <= i < |xs| :: r[i] == f(xs[i])
  {
    if xs == [] then [] else [f(xs[0])] + MapSeq(xs[1..], f)
  }

  /** Mapping commutes with removing a position. */
  lemma MapRemoveAt<T, U>(xs: seq<T>, j: nat, f: T -> U)
    requires j < |xs|
    ensures MapSeq(RemoveAt(xs, j), f) == RemoveAt(MapSeq(xs, f), j)
  {
    var ys := MapSeq(xs, f);
    assert RemoveAt(xs, j) == xs[..j] + xs[j + 1..];
    assert RemoveAt(ys, j) == ys[..j] + ys[j + 1..];
    MapConcat(xs[..j], xs[j + 1..], f);
    assert MapSeq(xs[..j], f) == ys[..j];
    assert MapSeq(xs[j + 1..], f) == ys[j + 1..];
  }

  /** Mapping commutes with concatenation. */
  lemma MapConcat<T, U>(a: seq<T>, b: seq<T>, f: T -> U)
    ensures MapSeq(a + b, f) == MapSeq(a, f) + MapSeq(b, f)
  {
    var l, r := MapSeq(a + b, f), MapSeq(a, f) + MapSeq(b, f);
    forall i | 0 <= i < |l|
      ensures l[i] == r[i]
    {
      if i < |a| {
        assert (a + b)[i] == a[i];
      } else {
        assert (a + b)[i] == b[i - |a|];
      }
    }
    assert l == r;
  }

  /** Two lists of one length that agree at `i` and everywhere else are
      equal. */
  lemma SameAtAndRest<T>(l: seq<T>, r: seq<T>, i: nat)
    requires i < |l| == |r| && l[i] == r[i]
    requires RemoveAt(l, i) == RemoveAt(r, i)
    ensures l == r
  {
    forall k | 0 <= k < |l|
      ensures l[k] == r[k]
    {
      if k < i {
        assert RemoveAt(l, i)[k] == l[k] && RemoveAt(r, i)[k] == r[k];
      } else if k > i {
        assert RemoveAt(l, i)[k - 1] == l[k] && RemoveAt(r, i)[k - 1] == r[k];
      }
    }
  }

  /** Mapping commutes with moving. */
  lemma MapMove<T, U>(xs: seq<T>, from: nat, to: nat, f: T -> U)
    requires from < |xs| && to < |xs|
    ensures MapSeq(Move(xs, from, to), f) == Move(MapSeq(xs, f), from, to)
  {
    var m := Move(xs, from, to);
    MapRemoveAt(m, to, f);
    MapRemoveAt(xs, from, f);
    SameAtAndRest(MapSeq(m, f), Move(MapSeq(xs, f), from, to), to);
  }

  /** Moving back undoes a move. */
  lemma MoveBack<T>(xs: seq<T>, from: nat, to: nat)
    requires from < |xs| && to < |xs|
    ensures Move(Move(xs, from, to), to, from) == xs
  {
    var b := Move(Move(xs, from, to), to, from);
    SameAtAndRest(b, xs, from);
  }

  /** `findIndex((x) => x.id === id)`, -1 when absent. */
  function IndexById<T>(xs: seq<T>, key: T -> string, id: string): (r: int)
    ensures -1 <= r < |xs|
    ensures r >= 0 ==> key(xs[r]) == id
    ensures r == -1 ==> forall k | 0 <= k < |xs| :: key(xs[k]) != id
  {
    if xs == [] then -1
    else if key(xs[0]) == id then 0
    else var r := IndexById(xs[1..], key, id); if r == -1 then -1 else r + 1
  }

  // ---------------------------------------------------------------------
  // Tasks step

  /** `Math.max(...tasks.map((t) => t.taskNumber)) + 1`, or 1 without tasks. */
  function NextTaskNumber(tasks: seq<Task>): (n: int)
    ensures forall i | 0 <= i < |tasks| :: n > tasks[i].taskNumber
    ensures tasks == [] ==> n == 1
    ensures tasks != [] ==> exists i | 0 <= i < |tasks| :: n == tasks[i].taskNumber + 1
  {
    if tasks == [] then 1 else MaxNumber(tasks) + 1
  }

  function MaxNumber(tasks: seq<Task>): (m: int)
    requires tasks != []
    ensures forall i | 0 <= i < |tasks| :: m >= tasks[i].taskNumber
    ensures exists i | 0 <= i < |tasks| :: m == tasks[i].taskNumber
  {
    if |tasks| == 1 then tasks[0].taskNumber
    else
      var m := MaxNumber(tasks[1..]);
      assert forall i | 1 <= i < |tasks| :: tasks[i] == tasks[1..][i - 1];
      Reducer.Max(tasks[0].taskNumber, m)
  }

  /** `addTask`: a blank task numbered past every existing one, appended
      with `sortOrder` = the current length; the button is disabled at
      MAX_TASKS tasks. */
  function AddTaskEdit(tasks: seq<Task>, id: string): (r: Option<Reducer.Action>)
    ensures r.Some? <==> |tasks| < MAX_TASKS
    ensures r.Some? ==> (r.value.AddTask?
      && var t := r.value.task;
         t.id == id && t.name == "" && t.featureIds == [] && t.sortOrder == |tasks|
         && (forall i | 0 <= i < |tasks| :: t.taskNumber > tasks[i].taskNumber)
         && t.status.None? && t.outOfScope.None?)
  {
    if |tasks| >= MAX_TASKS then None
    else Some(Reducer.AddTask(Task(id, NextTaskNumber(tasks), "", [], "", "", None, None, |tasks|)))
  }

  /** After `addTask` the new number is unique among the tasks. */
  lemma AddTaskNumberFresh(s: ProjectState, id: string, now: string, seed: Reducer.Fresh)
    requires |s.tasks| < MAX_TASKS
    ensures var r := Reducer.Reduce(s, AddTaskEdit(s.tasks, id).value, now, seed);
      |r.tasks| == |s.tasks| + 1
      && forall i | 0 <= i < |s.tasks| :: r.tasks[i].taskNumber != r.tasks[|s.tasks|].taskNumber
  {
    Reducer.AddTaskAppends(s, AddTaskEdit(s.tasks, id).value.task, now, seed);
  }

  function RenumberTasks(ts: seq<Task>): (r: seq<Task>)
    ensures |r| == |ts|
    ensures forall i | 0 <= i < |ts| :: r[i] == ts[i].(sortOrder := i)
  {
    seq(|ts|, i requires 0 <= i < |ts| => ts[i].(sortOrder := i))
  }

  /** Renumbering changes nothing but `sortOrder`. */
  lemma RenumberTasksBody(ts: seq<Task>)
    ensures MapSeq(RenumberTasks(ts), TaskBody) == MapSeq(ts, TaskBody)
  {
    var l := MapSeq(RenumberTasks(ts), TaskBody);
    forall k | 0 <= k < |ts|
      ensures l[k] == TaskBody(ts[k])
    {
    }
  }

  /** A task with its `sortOrder` ignored. */
  function TaskBody(t: Task): Task { t.(sortOrder := 0) }

  /** Moving then renumbering keeps the tasks and numbers them by
      position. */
  lemma TaskMoveFacts(ts: seq<Task>, from: nat, to: nat)
    requires from < |ts| && to < |ts|
    ensures var r := RenumberTasks(Move(ts, from, to));
      |r| == |ts|
      && (forall i | 0 <= i < |ts| :: r[i].sortOrder == i)
      && multiset(MapSeq(r, TaskBody)) == multiset(MapSeq(ts, TaskBody))
  {
    var m := Move(ts, from, to);
    RenumberTasksBody(m);
    MapMove(ts, from, to, TaskBody);
  }

  /** `handleDragEnd`: nothing without a drop target or on the dragged
      item itself; otherwise the moved list with `sortOrder` = position. The
      drag library reports only ids of the list's own items. */
  function DragTasks(ts: seq<Task>, active: string, over: Option<string>): (r: Option<Reducer.Action>)
    requires active in Ids(ts, Reducer.TaskId)
    requires over.Some? ==> over.value in Ids(ts, Reducer.TaskId)
    ensures r.None? <==> over.None? || over.value == active
    ensures r.Some? ==> (r.value.ReorderTasks?
      && |r.value.taskOrder| == |ts|
      && (forall i | 0 <= i < |ts| :: r.value.taskOrder[i].sortOrder == i)
      && multiset(MapSeq(r.value.taskOrder, TaskBody)) == multiset(MapSeq(ts, TaskBody)))
  {
    if over.None? || over.value == active then None
    else
      FoundWhenListed(ts, Reducer.TaskId, active);
      FoundWhenListed(ts, Reducer.TaskId, over.value);
      var from, to := IndexById(ts, Reducer.TaskId, active), IndexById(ts, Reducer.TaskId, over.value);
      TaskMoveFacts(ts, from, to);
      Some(Reducer.ReorderTasks(RenumberTasks(Move(ts, from, to))))
  }

  function Ids<T>(xs: seq<T>, key: T -> string): set<string> {
    set i | 0 <= i < |xs| :: key(xs[i])
  }

  /** An id of the list is found. */
  lemma FoundWhenListed<T>(xs: seq<T>, key: T -> string, id: string)
    requires id in Ids(xs, key)
    ensures 0 <= IndexById(xs, key, id)
  {
    var i :| 0 <= i < |xs| && key(xs[i]) == id;
  }

  /** `orphanedTasks`: the tasks linked to no feature. */
  function Orphans(ts: seq<Task>): (r: seq<Task>)
    ensures forall t | t in r :: t in ts && t.featureIds == []
    ensures forall t | t in ts && t.featureIds == [] :: t in r
  {
    if ts == [] then []
    else (if ts[0].featureIds == [] then [ts[0]] else []) + Orphans(ts[1..])
  }

  /** The task card's feature checkbox. */
  function ToggleTaskFeature(t: Task, featureId: string): (r: Reducer.Action)
    ensures r.UpdateTask? && r.taskId == t.id
    ensures r.taskUpdates.featureIds.Some?
    ensures featureId in r.taskUpdates.featureIds.value <==> featureId !in t.featureIds
  {
    Reducer.UpdateTask(t.id, Reducer.TaskPatch(None, None, None, Some(Toggle(t.featureIds, featureId)),
                                               None, None, None, None, None))
  }

  // ---------------------------------------------------------------------
  // Features step

  /** `handleNameChange`: name and slug change together. */
  function FeatureNameEdit(f: Feature, name: string): (r: Reducer.Action)
    ensures r.UpdateFeature? && r.featureId == f.id
    ensures r.featureUpdates.name == Some(name)
    ensures r.featureUpdates.slug.Some? && SlugChars(r.featureUpdates.slug.value)
            && NoDoubleHyphen(r.featureUpdates.slug.value)
  {
    FeatureSlugShape(name);
    Reducer.UpdateFeature(f.id, Reducer.FeaturePatch(None, Some(name), Some(FeatureSlug(name)),
                                                     None, None, None, None, None))
  }

  /** The rows of a feature card the list handlers edit. */
  datatype FeatureList = Criteria | Rules

  function ListOf(f: Feature, l: FeatureList): seq<string> {
    match l
    case Criteria => f.acceptanceCriteria
    case Rules => f.businessRules
  }

  function ListPatch(l: FeatureList, xs: seq<string>): Reducer.FeaturePatch {
    match l
    case Criteria => Reducer.FeaturePatch(None, None, None, None, None, Some(xs), None, None)
    case Rules => Reducer.FeaturePatch(None, None, None, None, Some(xs), None, None, None)
  }

  /** Add a blank row. */
  function AddRow(f: Feature, l: FeatureList): (r: Reducer.FeaturePatch)
    ensures var u := ListOf(Reducer.MergeFeature(f, r), l);
      |u| == |ListOf(f, l)| + 1 && u[|ListOf(f, l)|] == "" && u[..|ListOf(f, l)|] == ListOf(f, l)
  {
    var u := ListOf(f, l) + [""];
    assert u[..|ListOf(f, l)|] == ListOf(f, l);
    ListPatch(l, u)
  }

  /** Replace row `i` only. */
  function UpdateRow(f: Feature, l: FeatureList, i: nat, v: string): (r: Reducer.FeaturePatch)
    requires i < |ListOf(f, l)|
    ensures var u := ListOf(Reducer.MergeFeature(f, r), l);
      |u| == |ListOf(f, l)| && u[i] == v
      && forall k | 0 <= k < |u| && k != i :: u[k] == ListOf(f, l)[k]
  {
    ListPatch(l, SetAt(ListOf(f, l), i, v))
  }

  /** Delete row `i` only. */
  function RemoveRow(f: Feature, l: FeatureList, i: int): (r: Reducer.FeaturePatch)
    ensures ListOf(Reducer.MergeFeature(f, r), l) == RemoveAt(ListOf(f, l), i)
  {
    ListPatch(l, RemoveAt(ListOf(f, l), i))
  }

  /** The other list and every other field are untouched by row edits. */
  lemma RowEditsFrame(f: Feature, l: FeatureList, xs: seq<string>)
    ensures var g := Reducer.MergeFeature(f, ListPatch(l, xs));
      g == (match l
            case Criteria => f.(acceptanceCriteria := xs)
            case Rules => f.(businessRules := xs))
  {
  }

  /** `toggleTable` */
  function ToggleTable(f: Feature, table: string): (r: Reducer.FeaturePatch)
    ensures r.relatedTables.Some?
    ensures table in r.relatedTables.value <==> table !in f.relatedTables
    ensures forall t | t != table :: t in r.relatedTables.value <==> t in f.relatedTables
  {
    Reducer.FeaturePatch(None, None, None, None, None, None, Some(Toggle(f.relatedTables, table)), None)
  }

  /** `addFeature`: disabled at MAX_FEATURES features. */
  function AddFeatureEdit(fs: seq<Feature>, id: string): (r: Option<Reducer.Action>)
    ensures r.Some? <==> |fs| < MAX_FEATURES
    ensures r.Some? ==> (r.value.AddFeature?
      && var f := r.value.feature;
         f.id == id && f.name == "" && f.slug == "" && f.description == ""
         && f.businessRules == [""] && f.acceptanceCriteria == [] && f.relatedTables == []
         && f.sortOrder == |fs|)
  {
    if |fs| >= MAX_FEATURES then None
    else Some(Reducer.AddFeature(Feature(id, "", "", "", [""], [], [], |fs|)))
  }

  function RenumberFeatures(fs: seq<Feature>): (r: seq<Feature>)
    ensures |r| == |fs|
    ensures forall i | 0 <= i < |fs| :: r[i] == fs[i].(sortOrder := i)
  {
    seq(|fs|, i requires 0 <= i < |fs| => fs[i].(sortOrder := i))
  }

  /** Renumbering changes nothing but `sortOrder`. */
  lemma RenumberFeaturesBody(fs: seq<Feature>)
    ensures MapSeq(RenumberFeatures(fs), FeatureBody) == MapSeq(fs, FeatureBody)
  {
    var l := MapSeq(RenumberFeatures(fs), FeatureBody);
    forall k | 0 <= k < |fs|
      ensures l[k] == FeatureBody(fs[k])
    {
    }
  }

  /** A feature with its `sortOrder` ignored. */
  function FeatureBody(f: Feature): Feature { f.(sortOrder := 0) }

  /** Moving then renumbering keeps the features and numbers them by
      position. */
  lemma FeatureMoveFacts(fs: seq<Feature>, from: nat, to: nat)
    requires from < |fs| && to < |fs|
    ensures var r := RenumberFeatures(Move(fs, from, to));
      |r| == |fs|
      && (forall i | 0 <= i < |fs| :: r[i].sortOrder == i)
      && multiset(MapSeq(r, FeatureBody)) == multiset(MapSeq(fs, FeatureBody))
  {
    var m := Move(fs, from, to);
    RenumberFeaturesBody(m);
    MapMove(fs, from, to, FeatureBody);
  }

  /** The features step's `handleDragEnd`. */
  function DragFeatures(fs: seq<Feature>, active: string, over: Option<string>): (r: Option<Reducer.Action>)
    requires active in Ids(fs, Reducer.FeatureId)
    requires over.Some? ==> over.value in Ids(fs, Reducer.FeatureId)
    ensures r.None? <==> over.None? || over.value == active
    ensures r.Some? ==> (r.value.ReorderFeatures?
      && |r.value.featureOrder| == |fs|
      && (forall i | 0 <= i < |fs| :: r.value.featureOrder[i].sortOrder == i)
      && multiset(MapSeq(r.value.featureOrder, FeatureBody)) == multiset(MapSeq(fs, FeatureBody)))
  {
    if over.None? || over.value == active then None
    else
      FoundWhenListed(fs, Reducer.FeatureId, active);
      FoundWhenListed(fs, Reducer.FeatureId, over.value);
      var from, to := IndexById(fs, Reducer.FeatureId, active), IndexById(fs, Reducer.FeatureId, over.value);
      FeatureMoveFacts(fs, from, to);
      Some(Reducer.ReorderFeatures(RenumberFeatures(Move(fs, from, to))))
  }

  /** The dragged feature lands on the drop target's position. */
  lemma DragFeatureLands(fs: seq<Feature>, active: string, over: string)
    requires active in Ids(fs, Reducer.FeatureId) && over in Ids(fs, Reducer.FeatureId)
    requires active != over
    ensures var to := IndexById(fs, Reducer.FeatureId, over);
      var from := IndexById(fs, Reducer.FeatureId, active);
      0 <= to && 0 <= from
      && DragFeatures(fs, active, Some(over)).value.featureOrder[to] == fs[from].(sortOrder := to)
  {
  }

  // ---------------------------------------------------------------------
  // Project identity step

  /** `handleNameChange`: name and slug together. */
  function ProjectNameEdit(name: string): (r: Reducer.Action)
    ensures r.SetIdentity? && r.identityPatch.name == Some(name)
    ensures r.identityPatch.slug.Some? && IsSlug(r.identityPatch.slug.value)
    ensures r.identityPatch.purpose.None? && r.identityPatch.techStack.None?
  {
    ProjectSlugIsSlug(name);
    Reducer.SetIdentity(Reducer.IdentityPatch(Some(name), Some(ProjectSlug(name)), None, None, None, None, None))
  }

  /** `handlePurposeChange` touches only the purpose. */
  function PurposeEdit(purpose: string): (r: Reducer.Action)
    ensures r.SetIdentity?
    ensures forall x: Identity :: Reducer.MergeIdentity(x, r.identityPatch) == x.(purpose := purpose)
  {
    Reducer.SetIdentity(Reducer.IdentityPatch(None, None, Some(purpose), None, None, None, None))
  }

  /** The tech-stack selects of the identity step. */
  datatype StackField = Framework | Styling | Database | Auth | Deployment | ComponentLibrary

  function StackValue(ts: TechStack, c: StackField): string {
    match c
    case Framework => ts.framework
    case Styling => ts.styling
    case Database => ts.database
    case Auth => ts.auth
    case Deployment => ts.deployment
    case ComponentLibrary => ts.componentLibrary
  }

  /** `{ ...identity.techStack, [category]: value }` */
  function WithStack(ts: TechStack, c: StackField, v: string): (r: TechStack)
    ensures StackValue(r, c) == v
    ensures forall d | d != c :: StackValue(r, d) == StackValue(ts, d)
    ensures r.additional == ts.additional
  {
    match c
    case Framework => ts.(framework := v)
    case Styling => ts.(styling := v)
    case Database => ts.(database := v)
    case Auth => ts.(auth := v)
    case Deployment => ts.(deployment := v)
    case ComponentLibrary => ts.(componentLibrary := v)
  }

  /** Writing back the value a field already has changes nothing. */
  lemma WithStackSame(ts: TechStack, c: StackField)
    ensures WithStack(ts, c, StackValue(ts, c)) == ts
  {
  }

  function StackEdit(id: Identity, c: StackField, v: string): Reducer.Action {
    Reducer.SetIdentity(Reducer.IdentityPatch(None, None, None, Some(WithStack(id.techStack, c, v)), None, None, None))
  }

  /** A tech-stack change replaces one selection and keeps the others and
      every other identity field. */
  lemma StackEditFacts(s: ProjectState, c: StackField, v: string, now: string, seed: Reducer.Fresh)
    ensures var r := Reducer.Reduce(s, StackEdit(s.identity, c, v), now, seed);
      StackValue(r.identity.techStack, c) == v
      && (forall d | d != c :: StackValue(r.identity.techStack, d) == StackValue(s.identity.techStack, d))
      && r.identity.(techStack := s.identity.techStack) == s.identity
  {
  }

  // ---------------------------------------------------------------------
  // Database step

  /** `handleApproachChange` dispatches only the approach. */
  function ApproachEdit(a: Approach): (r: Reducer.Action)
    ensures r.SetDatabase?
    ensures forall d: Database :: Reducer.MergeDatabase(d, r.databasePatch) == d.(approach := a)
  {
    Reducer.SetDatabase(Reducer.DatabasePatch(Some(a), None, None, None))
  }

  /** Switching approach away and back loses nothing: description, pasted
      schema and tables survive. */
  lemma ApproachRoundTrip(s: ProjectState, a: Approach, now: string, seed: Reducer.Fresh)
    ensures Reducer.Reduce(Reducer.Reduce(s, ApproachEdit(a), now, seed), ApproachEdit(s.database.approach), now, seed).database
         == s.database
  {
  }

  /** The tables editor is shown unless the approach is "skip". */
  predicate ShowsTables(d: Database) {
    d.approach != Skip
  }

  function TableId(t: Table): string { t.id }

  /** `handleAddTable`: one blank table appended. */
  function AddTableEdit(d: Database, id: string): (r: Reducer.Action)
    ensures r.SetDatabase? && r.databasePatch.tables == Some(d.tables + [Table(id, "", "", "")])
    ensures r.databasePatch.approach.None?
  {
    Reducer.SetDatabase(Reducer.DatabasePatch(None, None, None, Some(d.tables + [Table(id, "", "", "")])))
  }

  /** `handleRemoveTable`: exactly the tables with the id go. */
  function RemoveTableEdit(d: Database, id: string): (r: Reducer.Action)
    ensures r.SetDatabase? && r.databasePatch.tables.Some?
    ensures var ts := r.databasePatch.tables.value;
      (forall i | 0 <= i < |ts| :: ts[i].id != id)
      && (forall t | t in d.tables && t.id != id :: t in ts)
      && (forall t | t in ts :: t in d.tables)
  {
    var ts := Reducer.Without(d.tables, TableId, id);
    assert forall i | 0 <= i < |ts| :: TableId(ts[i]) != id;
    assert forall i | 0 <= i < |d.tables| && d.tables[i].id != id :: TableId(d.tables[i]) != id;
    Reducer.SetDatabase(Reducer.DatabasePatch(None, None, None, Some(ts)))
  }

  datatype TableField = TableKey | TableName | TableDescription | TableColumns

  function SetTableField(t: Table, f: TableField, v: string): Table {
    match f
    case TableKey => t.(id := v)
    case TableName => t.(name := v)
    case TableDescription => t.(description := v)
    case TableColumns => t.(columns := v)
  }

  /** `handleTableChange`: the named field of the matching tables only. */
  function TableEdit(d: Database, id: string, f: TableField, v: string): (r: Reducer.Action)
    ensures r.SetDatabase? && r.databasePatch.tables.Some?
    ensures var ts := r.databasePatch.tables.value;
      |ts| == |d.tables|
      && forall i | 0 <= i < |ts| ::
           ts[i] == if d.tables[i].id == id then SetTableField(d.tables[i], f, v) else d.tables[i]
  {
    Reducer.SetDatabase(Reducer.DatabasePatch(None, None, None,
      Some(Reducer.UpdateById(d.tables, TableId, id, (t: Table, p: (TableField, string)) => SetTableField(t, p.0, p.1), (f, v)))))
  }

  // ---------------------------------------------------------------------
  // Architecture step

  /** On mount: the smart defaults for the tech stack, only when no layer
      exists yet. */
  function MountEdit(s: ProjectState): (r: Option<Reducer.Action>)
    ensures r.Some? <==> s.architecture.layers == []
    ensures r.Some? ==> (r.value.SetArchitecture?
      && r.value.architecturePatch.appType == Some(GetSmartDefaults(s.identity.techStack).appType)
      && r.value.architecturePatch.layers == Some(GetSmartDefaults(s.identity.techStack).layers))
  {
    if s.architecture.layers == [] then Some(ApplyDefaults(s.identity.techStack)) else None
  }

  function ApplyDefaults(ts: TechStack): Reducer.Action {
    var d := GetSmartDefaults(ts);
    Reducer.SetArchitecture(Reducer.ArchitecturePatch(Some(d.appType), Some(d.layers)))
  }

  /** Mounting the step on a project without layers leaves it with the
      seven default layers; mounting it again changes nothing. */
  lemma MountSeedsOnce(s: ProjectState, now: string, seed: Reducer.Fresh)
    requires s.architecture.layers == []
    ensures var r := Reducer.Reduce(s, MountEdit(s).value, now, seed);
      |r.architecture.layers| == |DEFAULT_LAYERS| && MountEdit(r).None?
  {
  }

  function LayerId(l: Layer): string { l.id }

  /** `handleLayerToggle`: flips `enabled` on the matching layer only. */
  function ToggleLayer(layers: seq<Layer>, id: string): (r: seq<Layer>)
    ensures |r| == |layers|
    ensures forall i | 0 <= i < |r| ::
      r[i] == if layers[i].id == id then layers[i].(enabled := !layers[i].enabled) else layers[i]
  {
    Reducer.UpdateById(layers, LayerId, id, (l: Layer, _: ()) => l.(enabled := !l.enabled), ())
  }

  /** Toggling a layer twice restores the layers. */
  lemma ToggleLayerTwice(layers: seq<Layer>, id: string)
    ensures ToggleLayer(ToggleLayer(layers, id), id) == layers
  {
    var r := ToggleLayer(ToggleLayer(layers, id), id);
    assert forall i | 0 <= i < |layers| :: r[i] == layers[i];
  }

  /** `handleLayerNotesChange`: notes of the matching layer only. */
  function LayerNotes(layers: seq<Layer>, id: string, notes: string): (r: seq<Layer>)
    ensures |r| == |layers|
    ensures forall i | 0 <= i < |r| ::
      r[i] == if layers[i].id == id then layers[i].(notes := notes) else layers[i]
  {
    Reducer.UpdateById(layers, LayerId, id, (l: Layer, n: string) => l.(notes := n), notes)
  }

  // ---------------------------------------------------------------------
  // Styling step

  datatype ColorField = ColorName | ColorHex

  function ColorId(c: BrandColor): string { c.id }

  /** `updateColor`: one field of the color with the id; length and order
      of the palette stay. */
  function UpdateColor(colors: seq<BrandColor>, id: string, f: ColorField, v: string): (r: seq<BrandColor>)
    ensures |r| == |colors|
    ensures forall i | 0 <= i < |r| :: r[i].id == colors[i].id
    ensures forall i | 0 <= i < |r| && colors[i].id != id :: r[i] == colors[i]
    ensures forall i | 0 <= i < |r| && colors[i].id == id ::
      (f == ColorName ==> r[i] == colors[i].(name := v)) && (f == ColorHex ==> r[i] == colors[i].(hex := v))
  {
    Reducer.UpdateById(colors, ColorId, id,
      (c: BrandColor, e: (ColorField, string)) => if e.0 == ColorName then c.(name := e.1) else c.(hex := e.1), (f, v))
  }

  datatype FontField = Heading | Body | Mono

  function FontOf(fonts: Fonts, f: FontField): string {
    match f
    case Heading => fonts.heading
    case Body => fonts.body
    case Mono => fonts.mono
  }

  /** `updateFont`: exactly one of the three fonts changes. */
  function UpdateFont(fonts: Fonts, f: FontField, v: string): (r: Fonts)
    ensures FontOf(r, f) == v
    ensures forall g | g != f :: FontOf(r, g) == FontOf(fonts, g)
  {
    match f
    case Heading => fonts.(heading := v)
    case Body => fonts.(body := v)
    case Mono => fonts.(mono := v)
  }

  /** The styling edits the step dispatches. */
  datatype StylingEdit =
    | ColorEdit(colorId: string, colorField: ColorField, colorValue: string)
    | FontEdit(fontField: FontField, fontValue: string)
    | LibraryEdit(library: string)
    | NotesEdit(notes: string)

  function StylingAction(st: Styling, e: StylingEdit): Reducer.Action {
    Reducer.SetStyling(
      match e
      case ColorEdit(id, f, v) => Reducer.StylingPatch(Some(UpdateColor(st.colors, id, f, v)), None, None, None, None)
      case FontEdit(f, v) => Reducer.StylingPatch(None, Some(UpdateFont(st.fonts, f, v)), None, None, None)
      case LibraryEdit(v) => Reducer.StylingPatch(None, None, Some(v), None, None)
      case NotesEdit(v) => Reducer.StylingPatch(None, None, None, None, Some(v)))
  }

  /** Library and notes are stored verbatim; each styling edit touches one
      part of the styling only. */
  lemma StylingEditFacts(s: ProjectState, e: StylingEdit, now: string, seed: Reducer.Fresh)
    ensures var st := Reducer.Reduce(s, StylingAction(s.styling, e), now, seed).styling;
      var old_ := s.styling;
      st.logoDataUrl == old_.logoDataUrl
      && (e.LibraryEdit? ==> st == old_.(componentLibrary := e.library))
      && (e.NotesEdit? ==> st == old_.(additionalNotes := e.notes))
      && (e.FontEdit? ==> st == old_.(fonts := UpdateFont(old_.fonts, e.fontField, e.fontValue)))
      && (e.ColorEdit? ==> st.fonts == old_.fonts && |st.colors| == |old_.colors|)
  {
  }
}
