/** The review step (components/wizard/steps/step-review.tsx): the "heads
    up" warnings, the word-count badge and PROJECT.md banner, the total word
    count and saving an edited file as an override. */
module Review {
  import opened Wrappers
  import opened Text
  import opened Lines
  import opened Project
  import opened Words
  import Reducer
  import Assembler

  // ---------------------------------------------------------------------
  // What the warnings count

  /** `xs.filter(p)`: the elements that pass, in order. */
  function Filter<T>(xs: seq<T>, p: T -> bool): (r: seq<T>)
    ensures |r| <= |xs|
  {
    if xs == [] then []
    else if p(xs[0]) then [xs[0]] + Filter(xs[1..], p)
    else Filter(xs[1..], p)
  }

  /** What a filter keeps: exactly the elements that pass; all of them
      exactly when its length is unchanged, none exactly when it is empty. */
  lemma {:induction false} FilterFacts<T>(xs: seq<T>, p: T -> bool)
    ensures var r := Filter(xs, p);
      && (forall i | 0 <= i < |r| :: p(r[i]) && r[i] in xs)
      && (forall i | 0 <= i < |xs| && p(xs[i]) :: xs[i] in r)
      && (|r| == |xs| <==> forall i | 0 <= i < |xs| :: p(xs[i]))
      && (r == [] <==> forall i | 0 <= i < |xs| :: !p(xs[i]))
  {
    if xs != [] {
      FilterFacts(xs[1..], p);
      var r, rest := Filter(xs, p), Filter(xs[1..], p);
      assert forall i | 1 <= i < |xs| :: xs[i] == xs[1..][i - 1];
      if p(xs[0]) {
        assert r == [xs[0]] + rest;
        assert forall i | 1 <= i < |r| :: r[i] == rest[i - 1];
      } else {
        assert r == rest;
      }
    }
  }

  predicate BlankName(f: Feature) { Trim(f.name) == "" }

  predicate BlankDone(t: Task) { Trim(t.definitionOfDone) == "" }

  predicate NoFeatureIds(t: Task) { |t.featureIds| == 0 }

  predicate IsAnswered(d: Decision) { d.selectedOptionId.Some? }

  /** `new Set(tasks.flatMap((t) => t.featureIds))` */
  function LinkedIds(ts: seq<Task>): set<string> {
    if ts == [] then {} else (set id | id in ts[0].featureIds) + LinkedIds(ts[1..])
  }

  /** An id is linked exactly when some task lists it. */
  lemma {:induction false} LinkedIdsFacts(ts: seq<Task>, id: string)
    ensures id in LinkedIds(ts) <==> exists j | 0 <= j < |ts| :: id in ts[j].featureIds
  {
    if ts != [] {
      LinkedIdsFacts(ts[1..], id);
      assert forall j | 1 <= j < |ts| :: ts[1..][j - 1] == ts[j];
    }
  }

  /** The features no task links to. */
  function Unlinked(fs: seq<Feature>, ts: seq<Task>): (r: seq<Feature>)
    ensures |r| <= |fs|
  {
    var linked := LinkedIds(ts);
    Filter(fs, (f: Feature) => f.id !in linked)
  }

  /** The unlinked features are exactly those whose id no task lists. */
  lemma UnlinkedFacts(fs: seq<Feature>, ts: seq<Task>)
    ensures var r := Unlinked(fs, ts);
      && (forall i | 0 <= i < |r| :: r[i] in fs && forall j | 0 <= j < |ts| :: r[i].id !in ts[j].featureIds)
      && (forall i | 0 <= i < |fs| && (forall j | 0 <= j < |ts| :: fs[i].id !in ts[j].featureIds) :: fs[i] in r)
      && (r == [] <==> forall i | 0 <= i < |fs| :: exists j | 0 <= j < |ts| :: fs[i].id in ts[j].featureIds)
  {
    var linked := LinkedIds(ts);
    FilterFacts(fs, (f: Feature) => f.id !in linked);
    forall i | 0 <= i < |fs|
      ensures fs[i].id in linked <==> exists j | 0 <= j < |ts| :: fs[i].id in ts[j].featureIds
    {
      LinkedIdsFacts(ts, fs[i].id);
    }
  }

  /** `unlinkedFeatures.map((f) => f.name || "Unnamed")` */
  function Names(fs: seq<Feature>): (r: seq<string>)
    ensures |r| == |fs|
    ensures forall i | 0 <= i < |fs| :: r[i] == OrElse(fs[i].name, "Unnamed")
  {
    if fs == [] then [] else [OrElse(fs[0].name, "Unnamed")] + Names(fs[1..])
  }

  // ---------------------------------------------------------------------
  // The warnings

  /** One line of the warning list. `NoTasks` carries the names shown. */
  datatype Warning =
    | NoName(count: nat)
    | NoTasks(names: seq<string>)
    | NoDoneCriteria(count: nat)
    | NoFeature(count: nat)
    | Unanswered(count: nat)
    | NoDecisions

  /** `${n > 1 ? "s" : ""}` */
  function Plural(n: nat): string {
    if n > 1 then "s" else ""
  }

  function Message(w: Warning): string {
    match w
    case NoName(n) => NatToString(n) + " feature" + Plural(n) + " with no name"
    case NoTasks(names) =>
      NatToString(|names|) + " feature" + Plural(|names|) + " with no tasks linked: " + Join(names, ", ")
    case NoDoneCriteria(n) => NatToString(n) + " task" + Plural(n) + " with no Definition of Done"
    case NoFeature(n) => NatToString(n) + " task" + Plural(n) + " not linked to any feature"
    case Unanswered(n) => NatToString(n) + " convention question" + Plural(n) + " not answered"
    case NoDecisions => "No convention decisions made — consider going back to the Conventions step"
  }

  /** `cond ? [w] : []` */
  function When(cond: bool, w: Warning): seq<Warning> {
    if cond then [w] else []
  }

  /** What the warnings are computed from: the counts of each kind of gap
      and the names of the unlinked features. */
  datatype Tally = Tally(
    unnamed: nat, unlinked: seq<string>, noDone: nat, orphaned: nat,
    decisions: nat, answered: nat)

  function TallyOf(s: ProjectState): (t: Tally)
    ensures t.answered <= t.decisions
  {
    var ds := s.conventions.decisions;
    Tally(
      |Filter(s.features, BlankName)|,
      Names(Unlinked(s.features, s.tasks)),
      |Filter(s.tasks, BlankDone)|,
      |Filter(s.tasks, NoFeatureIds)|,
      |ds|,
      |Filter(ds, IsAnswered)|)
  }

  /** The convention line: the unanswered count when there is one, the
      "no decisions" hint for an empty list, nothing when all are answered. */
  function ConventionCheck(decisions: nat, answered: nat): (r: seq<Warning>)
    requires answered <= decisions
    ensures r == [] <==> decisions > 0 && answered == decisions
    ensures decisions == 0 ==> r == [NoDecisions]
    ensures decisions > 0 && r != [] ==> r == [Unanswered(decisions - answered)]
  {
    var unanswered := decisions - answered;
    if unanswered > 0 then [Unanswered(unanswered)]
    else if decisions == 0 then [NoDecisions]
    else []
  }

  /** The warning lines for a tally, in display order. */
  function ChecksOf(t: Tally): (r: seq<Warning>)
    requires t.answered <= t.decisions
    ensures |r| <= 5
  {
    When(t.unnamed > 0, NoName(t.unnamed))
    + When(|t.unlinked| > 0, NoTasks(t.unlinked))
    + When(t.noDone > 0, NoDoneCriteria(t.noDone))
    + When(t.orphaned > 0, NoFeature(t.orphaned))
    + ConventionCheck(t.decisions, t.answered)
  }

  /** A tally yields no line exactly when every count is zero and every
      convention decision is answered; a zero orphan count yields no orphan
      line. */
  lemma ChecksOfFacts(t: Tally)
    requires t.answered <= t.decisions
    ensures ChecksOf(t) == [] <==>
      t.unnamed == 0 && |t.unlinked| == 0 && t.noDone == 0 && t.orphaned == 0
      && t.decisions > 0 && t.answered == t.decisions
    ensures t.orphaned == 0 ==> forall i | 0 <= i < |ChecksOf(t)| :: !ChecksOf(t)[i].NoFeature?
  {
  }

  /** The `warnings` memo, as structured lines in display order. */
  function Checks(s: ProjectState): seq<Warning> {
    ChecksOf(TallyOf(s))
  }

  /** The warning texts the screen lists. */
  function Warnings(s: ProjectState): (r: seq<string>)
    ensures |r| == |Checks(s)|
    ensures forall i | 0 <= i < |r| :: r[i] == Message(Checks(s)[i])
  {
    var c := Checks(s);
    seq(|c|, i requires 0 <= i < |c| => Message(c[i]))
  }

  predicate AllNamed(fs: seq<Feature>) {
    forall i | 0 <= i < |fs| :: !IsBlank(fs[i].name)
  }

  predicate AllLinked(fs: seq<Feature>, ts: seq<Task>) {
    forall i | 0 <= i < |fs| :: exists j | 0 <= j < |ts| :: fs[i].id in ts[j].featureIds
  }

  predicate AllDone(ts: seq<Task>) {
    forall j | 0 <= j < |ts| :: !IsBlank(ts[j].definitionOfDone)
  }

  predicate NoOrphans(ts: seq<Task>) {
    forall j | 0 <= j < |ts| :: |ts[j].featureIds| > 0
  }

  predicate AllAnswered(ds: seq<Decision>) {
    forall i | 0 <= i < |ds| :: ds[i].selectedOptionId.Some?
  }

  /** A project the review step has nothing to say about. */
  predicate Clean(s: ProjectState) {
    && AllNamed(s.features)
    && AllLinked(s.features, s.tasks)
    && AllDone(s.tasks)
    && NoOrphans(s.tasks)
    && |s.conventions.decisions| > 0
    && AllAnswered(s.conventions.decisions)
  }

  /** Each count of the tally is zero exactly when its part of `Clean`
      holds. */
  lemma UnnamedZeroIff(fs: seq<Feature>)
    ensures Filter(fs, BlankName) == [] <==> AllNamed(fs)
  {
    FilterFacts(fs, BlankName);
  }

  lemma UnlinkedZeroIff(fs: seq<Feature>, ts: seq<Task>)
    ensures Names(Unlinked(fs, ts)) == [] <==> AllLinked(fs, ts)
  {
    UnlinkedFacts(fs, ts);
  }

  lemma NoDoneZeroIff(ts: seq<Task>)
    ensures Filter(ts, BlankDone) == [] <==> AllDone(ts)
  {
    FilterFacts(ts, BlankDone);
  }

  lemma OrphanedZeroIff(ts: seq<Task>)
    ensures Filter(ts, NoFeatureIds) == [] <==> NoOrphans(ts)
  {
    FilterFacts(ts, NoFeatureIds);
  }

  lemma AnsweredAllIff(ds: seq<Decision>)
    ensures |Filter(ds, IsAnswered)| == |ds| <==> AllAnswered(ds)
  {
    FilterFacts(ds, IsAnswered);
  }

  /** No warning is shown exactly when the project is clean. */
  lemma NoWarningsIffClean(s: ProjectState)
    ensures Warnings(s) == [] <==> Clean(s)
  {
    var t := TallyOf(s);
    assert Warnings(s) == [] <==> ChecksOf(t) == [] by {
      assert |Warnings(s)| == |ChecksOf(t)|;
    }
    ChecksOfFacts(t);
    UnnamedZeroIff(s.features);
    UnlinkedZeroIff(s.features, s.tasks);
    NoDoneZeroIff(s.tasks);
    OrphanedZeroIff(s.tasks);
    AnsweredAllIff(s.conventions.decisions);
  }

  /** Only an empty id list makes a task an orphan: ids that point at no
      existing feature still count as linked. */
  lemma DanglingIdsAreNotOrphans(s: ProjectState)
    requires NoOrphans(s.tasks)
    ensures forall i | 0 <= i < |Checks(s)| :: !Checks(s)[i].NoFeature?
  {
    OrphanedZeroIff(s.tasks);
    ChecksOfFacts(TallyOf(s));
  }

  // ---------------------------------------------------------------------
  // Word counts

  datatype Variant = Destructive | Secondary | Outline

  /** `WordCountBadge`: only PROJECT.md is ever coloured. */
  function Badge(count: int, isProject: bool): (r: Variant)
    ensures !isProject ==> r == Outline
    ensures r == Destructive <==> isProject && count >= PROJECT_MD_WORD_DANGER
    ensures r == Secondary <==> isProject && PROJECT_MD_WORD_WARNING <= count < PROJECT_MD_WORD_DANGER
  {
    if isProject then
      if count >= PROJECT_MD_WORD_DANGER then Destructive
      else if count >= PROJECT_MD_WORD_WARNING then Secondary
      else Outline
    else Outline
  }

  /** `files.find((f) => f.path === path)` */
  function FindPath(files: seq<GeneratedFile>, path: string): (r: Option<GeneratedFile>)
    ensures r.None? <==> forall i | 0 <= i < |files| :: files[i].path != path
    ensures r.Some? ==> r.value in files && r.value.path == path
  {
    if files == [] then None
    else if files[0].path == path then Some(files[0])
    else FindPath(files[1..], path)
  }

  /** The PROJECT.md banner: whether it is red, and its text. */
  datatype Banner = Banner(red: bool, text: string)

  function ProjectBanner(files: seq<GeneratedFile>): (r: Option<Banner>)
    ensures r.Some? ==> exists i | 0 <= i < |files| ::
      files[i].path == "PROJECT.md" && files[i].wordCount >= PROJECT_MD_WORD_WARNING
    ensures (forall i | 0 <= i < |files| :: files[i].path != "PROJECT.md") ==> r.None?
  {
    match FindPath(files, "PROJECT.md")
    case None => None
    case Some(p) =>
      if p.wordCount < PROJECT_MD_WORD_WARNING then None
      else
        var n := p.wordCount;
        Some(Banner(n >= PROJECT_MD_WORD_DANGER, "PROJECT.md is " + NatToString(n) + " words"
          + (if n >= PROJECT_MD_WORD_DANGER
             then " — this may be too long for an AI context window. Consider trimming."
             else " — getting long. Keep under 3000 words for best results.")))
  }

  /** The banner and the PROJECT.md badge agree: a banner is shown exactly
      when the badge is coloured, and it is red exactly when the badge is
      destructive. */
  lemma BannerMatchesBadge(files: seq<GeneratedFile>, i: nat)
    requires i < |files| && files[i].path == "PROJECT.md"
    requires forall k | 0 <= k < i :: files[k].path != "PROJECT.md"
    ensures var b := Badge(files[i].wordCount, true);
      && (ProjectBanner(files).Some? <==> b != Outline)
      && (ProjectBanner(files).Some? ==> (ProjectBanner(files).value.red <==> b == Destructive))
  {
    FindFirst(files, "PROJECT.md", i);
  }

  /** `find` returns the first match. */
  lemma {:induction false} FindFirst(files: seq<GeneratedFile>, path: string, i: nat)
    requires i < |files| && files[i].path == path
    requires forall k | 0 <= k < i :: files[k].path != path
    ensures FindPath(files, path) == Some(files[i])
  {
    if i > 0 {
      FindFirst(files[1..], path, i - 1);
    }
  }

  /** `files.reduce((sum, f) => sum + f.wordCount, 0)` */
  function TotalWords(files: seq<GeneratedFile>): (n: int)
    ensures (forall i | 0 <= i < |files| :: files[i].wordCount >= 0) ==>
      n >= 0 && forall i | 0 <= i < |files| :: files[i].wordCount <= n
  {
    if files == [] then 0 else files[0].wordCount + TotalWords(files[1..])
  }

  /** The total is additive over a split of the file list. */
  lemma {:induction false} TotalWordsAppend(a: seq<GeneratedFile>, b: seq<GeneratedFile>)
    ensures TotalWords(a + b) == TotalWords(a) + TotalWords(b)
  {
    if a == [] {
      assert a + b == b;
    } else {
      assert (a + b)[1..] == a[1..] + b;
      TotalWordsAppend(a[1..], b);
    }
  }

  // ---------------------------------------------------------------------
  // Saving an edit

  /** `handleSaveEdit`: with a file selected, an override for exactly its
      path; nothing otherwise. */
  function SaveEdit(selected: Option<GeneratedFile>, text: string): (r: Option<Reducer.Action>)
    ensures r.Some? <==> selected.Some?
    ensures r.Some? ==> r.value == Reducer.SetMarkdownOverride(selected.value.path, text)
  {
    match selected
    case None => None
    case Some(f) => Some(Reducer.SetMarkdownOverride(f.path, text))
  }

  /** After saving, the regenerated list has the same files, the edited
      file (and any other at the same path) holds the saved text, and every
      file at another path is unchanged. */
  lemma SavedEditShows(s: ProjectState, d: Assembler.Rendered, i: nat, text: string, now: string, seed: Reducer.Fresh)
    requires i < |Assembler.Assemble(s, d)|
    ensures var a := Assembler.Assemble(s, d);
      var s' := Reducer.Reduce(s, SaveEdit(Some(a[i]), text).value, now, seed);
      var b := Assembler.Assemble(s', d);
      && |b| == |a|
      && b[i].content == text && b[i].wordCount == WordCount(text)
      && forall k | 0 <= k < |a| && a[k].path != a[i].path :: b[k] == a[k]
  {
    var a := Assembler.Assemble(s, d);
    var p := a[i].path;
    var s' := Reducer.Reduce(s, SaveEdit(Some(a[i]), text).value, now, seed);
    assert s' == s.(markdownOverrides := s.markdownOverrides[p := text], meta := s.meta.(updatedAt := now));
    assert Assembler.Emitted(s') == Assembler.Emitted(s);
  }
}
