/** The wizard's step table (types/wizard.ts), its Back/Next/Skip rules
    (wizard-navigation.tsx), the four-slot progress window
    (wizard-progress.tsx) and the shell's effective-step and banner rules
    (wizard-shell.tsx). */
module Wizard {
  import opened Wrappers
  import opened Project
  import Reducer

  datatype WizardStep = WizardStep(
    number: int,
    id: string,
    title: string,
    description: string,
    isConditional: bool,
    isOptional: bool)

  const WIZARD_STEPS: seq<WizardStep> := [
    WizardStep(1, "project-identity", "Project Identity", "Name your project and choose your tech stack", false, false),
    WizardStep(2, "architecture", "Architecture", "Define your app type and architecture layers", false, false),
    WizardStep(3, "styling", "Styling & Brand", "Set your brand colors, fonts, and component library", false, false),
    WizardStep(4, "conventions", "Conventions", "Choose the coding patterns your project will follow", false, false),
    WizardStep(5, "database", "Database Schema", "Define your database tables and relationships", true, false),
    WizardStep(6, "features", "Features", "Define what your project needs to do", false, false),
    WizardStep(7, "tasks", "Tasks", "Break features into focused, AI-ready tasks", false, false),
    WizardStep(8, "review", "Review & Export", "Review your framework files and download", false, false),
    WizardStep(9, "deployment", "Deployment Guide", "Get a skeleton file structure and deployment checklist", false, true)
  ]

  /** Nine steps numbered 1..9 in table order; only the database step (5)
      is conditional and only the deployment step (9) is optional. */
  lemma StepTableShape()
    ensures |WIZARD_STEPS| == 9
    ensures forall i | 0 <= i < 9 :: WIZARD_STEPS[i].number == i + 1
    ensures forall i | 0 <= i < 9 :: WIZARD_STEPS[i].isConditional <==> WIZARD_STEPS[i].number == 5
    ensures forall i | 0 <= i < 9 :: WIZARD_STEPS[i].isOptional <==> WIZARD_STEPS[i].number == 9
  {
  }

  /** No two steps share an id. */
  lemma StepIdsDistinct()
    ensures forall i, j | 0 <= i < j < |WIZARD_STEPS| :: WIZARD_STEPS[i].id != WIZARD_STEPS[j].id
  {
    forall i, j | 0 <= i < j < |WIZARD_STEPS|
      ensures WIZARD_STEPS[i].id != WIZARD_STEPS[j].id
    {
      var a := WIZARD_STEPS[i].id;
      var b := WIZARD_STEPS[j].id;
      assert a[..2] != b[..2] || |a| != |b| || a[2] != b[2];
    }
  }

  /** `WIZARD_STEPS.find((s) => s.number === n)` */
  function FindStep(n: int): (r: Option<WizardStep>)
    ensures r.Some? <==> 1 <= n <= 9
    ensures r.Some? ==> r.value.number == n && r.value in WIZARD_STEPS
  {
    if 1 <= n <= 9 then Some(WIZARD_STEPS[n - 1]) else None
  }

  /** `layers.some((layer) => layer.id === "database" && layer.enabled)` */
  predicate DatabaseApplicable(layers: seq<Layer>) {
    exists i | 0 <= i < |layers| :: layers[i].id == "database" && layers[i].enabled
  }

  // ---------------------------------------------------------------------
  // Navigation buttons

  /** The step the Next button asks for; None when the button is hidden
      (on the last step). */
  function NextTarget(current: int, db: bool): (r: Option<int>)
    ensures r.None? <==> current == 9
    ensures r.Some? && !db ==> r.value != 5
    ensures r.Some? ==> r.value > current
  {
    if current == 9 then None
    else if current == 4 && !db then Some(6)
    else Some(current + 1)
  }

  /** The step the Back button asks for; None when the button is disabled
      (on the first step). */
  function BackTarget(current: int, db: bool): (r: Option<int>)
    ensures r.None? <==> current == 1
    ensures r.Some? && !db ==> r.value != 5
    ensures r.Some? ==> r.value < current
  {
    if current == 1 then None
    else if current == 6 && !db then Some(4)
    else Some(current - 1)
  }

  /** The step Skip asks for; the button exists only on optional steps. */
  function SkipTarget(current: int): (r: Option<int>)
    ensures r.Some? <==> current == 9
    ensures r.Some? ==> r.value == current + 1 && FindStep(r.value).None?
  {
    var d := FindStep(current);
    if d.Some? && d.value.isOptional then Some(current + 1) else None
  }

  /** The caption of the Next button. */
  function NextLabel(current: int): (r: string)
    ensures current == 7 ==> r == "Review & Export"
    ensures current == 8 ==> r == "Deployment Guide"
    ensures current != 7 && current != 8 ==> r == "Next"
  {
    if current == 7 then "Review & Export" else if current == 8 then "Deployment Guide" else "Next"
  }

  /** Back undoes Next and Next undoes Back on every step the wizard can
      show: everywhere but the database step when it does not apply. */
  lemma BackUndoesNext(current: int, db: bool)
    requires 1 <= current <= 9
    requires current == 5 ==> db
    ensures var n := NextTarget(current, db);
      n.Some? ==> BackTarget(n.value, db) == Some(current)
    ensures var b := BackTarget(current, db);
      b.Some? ==> NextTarget(b.value, db) == Some(current)
  {
  }

  /** Walking forward with Next from step 1 visits every applicable step in
      order: step 5 is visited exactly when the database layer applies. */
  function Walk(current: int, db: bool, fuel: nat): (r: seq<int>)
    decreases fuel
  {
    if fuel == 0 then [current]
    else match NextTarget(current, db)
      case None => [current]
      case Some(n) => [current] + Walk(n, db, fuel - 1)
  }

  lemma WalkVisitsApplicable(db: bool)
    ensures db ==> Walk(1, db, 8) == [1, 2, 3, 4, 5, 6, 7, 8, 9]
    ensures !db ==> Walk(1, db, 8) == [1, 2, 3, 4, 6, 7, 8, 9]
  {
  }

  // ---------------------------------------------------------------------
  // Progress window

  const VISIBLE_COUNT := 4

  /** `WIZARD_STEPS.filter(...)` of the progress bar: a conditional step
      survives only when it is not step 5 or the database layer applies. */
  function Keep(steps: seq<WizardStep>, db: bool): (r: seq<WizardStep>)
    ensures |r| <= |steps|
  {
    if steps == [] then []
    else (if !steps[0].isConditional || steps[0].number != 5 || db then [steps[0]] else [])
         + Keep(steps[1..], db)
  }

  function Numbers(steps: seq<WizardStep>): (r: seq<int>)
    ensures |r| == |steps| && forall k | 0 <= k < |steps| :: r[k] == steps[k].number
  {
    if steps == [] then [] else [steps[0].number] + Numbers(steps[1..])
  }

  /** The numbers of the steps the progress bar shows: 1..9, without 5
      unless the database layer applies. */
  function ApplicableNumbers(db: bool): (r: seq<int>)
    ensures |r| == if db then 9 else 8
    ensures forall k | 0 <= k < |r| :: 1 <= r[k] <= 9 && (r[k] == 5 ==> db)
    ensures forall k, m | 0 <= k < m < |r| :: r[k] < r[m]
  {
    seq(if db then 9 else 8, k => if db || k < 4 then k + 1 else k + 2)
  }

  /** A filter that lets every step through when the layer applies. */
  lemma {:induction false} KeepAll(t: seq<WizardStep>)
    ensures Keep(t, true) == t
  {
    if t != [] {
      KeepAll(t[1..]);
    }
  }

  /** Without the layer, the filter drops exactly the conditional step 5. */
  lemma {:induction false} KeepDropsOne(t: seq<WizardStep>, j: nat)
    requires j < |t|
    requires forall i | 0 <= i < |t| :: (t[i].isConditional && t[i].number == 5) <==> i == j
    ensures Keep(t, false) == t[..j] + t[j + 1..]
  {
    if j == 0 {
      KeepAll'(t[1..]);
      assert t[..0] + t[1..] == t[1..];
    } else {
      KeepDropsOne(t[1..], j - 1);
      assert t[..j] + t[j + 1..] == [t[0]] + (t[1..][..j - 1] + t[1..][j..]);
    }
  }

  /** No step left to drop: the filter keeps everything. */
  lemma {:induction false} KeepAll'(t: seq<WizardStep>)
    requires forall i | 0 <= i < |t| :: !(t[i].isConditional && t[i].number == 5)
    ensures Keep(t, false) == t
  {
    if t != [] {
      KeepAll'(t[1..]);
    }
  }

  /** The shape of the step table: nine steps numbered 1..9 in order, of
      which only step 5 is conditional. */
  predicate NineSteps(t: seq<WizardStep>) {
    |t| == 9
    && (forall i | 0 <= i < 9 :: t[i].number == i + 1)
    && (forall i | 0 <= i < 9 :: t[i].isConditional <==> t[i].number == 5)
  }

  lemma ApplicableFromShape(t: seq<WizardStep>, db: bool)
    requires NineSteps(t)
    ensures Numbers(Keep(t, db)) == ApplicableNumbers(db)
  {
    var a := ApplicableNumbers(db);
    var u := Keep(t, db);
    if db {
      KeepAll(t);
    } else {
      KeepDropsOne(t, 4);
      assert forall k | 0 <= k < 8 :: u[k] == if k < 4 then t[k] else t[k + 1];
    }
    var n := Numbers(u);
    assert |n| == |a|;
    assert forall k | 0 <= k < |a| :: n[k] == a[k];
  }

  /** The filter over the step table keeps every step but the database step,
      which it keeps exactly when the database layer applies. */
  lemma ApplicableFromTable(db: bool)
    ensures Numbers(Keep(WIZARD_STEPS, db)) == ApplicableNumbers(db)
  {
    StepTableShape();
    assert NineSteps(WIZARD_STEPS);
    ApplicableFromShape(WIZARD_STEPS, db);
  }

  /** `findIndex((s) => s.number === n)`, -1 when absent. */
  function IndexOf(xs: seq<int>, n: int): (r: int)
    ensures -1 <= r < |xs|
    ensures r >= 0 ==> xs[r] == n && forall k | 0 <= k < r :: xs[k] != n
    ensures r == -1 ==> forall k | 0 <= k < |xs| :: xs[k] != n
  {
    if xs == [] then -1
    else if xs[0] == n then 0
    else var r := IndexOf(xs[1..], n); if r == -1 then -1 else r + 1
  }

  /** The index of the first visible slot: centre the current index in the
      four slots, clamped to the list. */
  function WindowStart(total: nat, currentIndex: int): (w: nat)
    ensures total <= VISIBLE_COUNT ==> w == 0
    ensures total > VISIBLE_COUNT ==> w + VISIBLE_COUNT <= total
    ensures 0 <= currentIndex < total ==> w <= currentIndex < w + VISIBLE_COUNT
  {
    if total <= VISIBLE_COUNT then 0
    else Reducer.Max(0, Min(currentIndex - VISIBLE_COUNT / 2, total - VISIBLE_COUNT))
  }

  function Min(a: int, b: int): int { if a <= b then a else b }

  /** The progress bar's view of the state; the visible steps are given by
      their numbers. */
  datatype Progress = Progress(
    visible: seq<int>,
    windowStart: nat,
    canScrollLeft: bool,
    canScrollRight: bool)

  /** `applicableSteps.slice(start, start + 4)`; JavaScript's `slice` clamps
      the end to the length. */
  function ProgressOf(current: int, db: bool): (p: Progress)
    ensures var steps := ApplicableNumbers(db);
      p.windowStart <= |steps|
      && p.visible == steps[p.windowStart..Min(p.windowStart + VISIBLE_COUNT, |steps|)]
  {
    var steps := ApplicableNumbers(db);
    var w := WindowStart(|steps|, IndexOf(steps, current));
    Progress(steps[w..Min(w + VISIBLE_COUNT, |steps|)], w, w > 0, w + VISIBLE_COUNT < |steps|)
  }

  /** The window always shows four steps (there are eight or nine), the
      arrows light up exactly when steps lie outside the window on that
      side, and an applicable current step is always in view. */
  lemma ProgressFacts(current: int, db: bool)
    ensures var p := ProgressOf(current, db);
      var steps := ApplicableNumbers(db);
      |p.visible| == VISIBLE_COUNT
      && (p.canScrollLeft <==> p.windowStart > 0)
      && (p.canScrollRight <==> p.windowStart + VISIBLE_COUNT < |steps|)
      && (current in steps ==> current in p.visible)
  {
    var steps := ApplicableNumbers(db);
    var p := ProgressOf(current, db);
    var ci := IndexOf(steps, current);
    if current in steps {
      assert ci >= 0;
      assert p.visible[ci - p.windowStart] == steps[ci];
    }
  }

  /** A click on step `n` navigates only backwards or to the current step. */
  function ClickTarget(current: int, n: int): (r: Option<int>)
    ensures r.Some? <==> n <= current
    ensures r.Some? ==> r.value == n
  {
    if n <= current then Some(n) else None
  }

  /** The left arrow: the step just before the window, if any and if it is
      not ahead of the current step. */
  function ScrollLeftTarget(current: int, db: bool): (r: Option<int>)
    ensures r.Some? ==> r.value <= current && ProgressOf(current, db).canScrollLeft
  {
    var steps := ApplicableNumbers(db);
    var w := ProgressOf(current, db).windowStart;
    if 0 < w <= |steps| && steps[w - 1] <= current then Some(steps[w - 1]) else None
  }

  /** The right arrow: the step just after the window, under the same
      guard. */
  function ScrollRightTarget(current: int, db: bool): (r: Option<int>)
    ensures r.Some? ==> r.value <= current && ProgressOf(current, db).canScrollRight
  {
    var steps := ApplicableNumbers(db);
    var w := ProgressOf(current, db).windowStart;
    if w + VISIBLE_COUNT < |steps| && steps[w + VISIBLE_COUNT] <= current
    then Some(steps[w + VISIBLE_COUNT]) else None
  }

  /** Navigating from the progress bar never raises the furthest step
      reached of a consistent state. */
  lemma ProgressBarKeepsFurthest(s: ProjectState, r: Option<int>, now: string, seed: Reducer.Fresh)
    requires Reducer.StepsConsistent(s)
    requires r.Some? && r.value <= s.meta.currentStep
    ensures Reducer.Reduce(s, Reducer.SetStep(r.value), now, seed).meta.highestStepReached
         == s.meta.highestStepReached
  {
  }

  // ---------------------------------------------------------------------
  // Shell

  /** Step 5 without a database layer shows step 6 instead. */
  function EffectiveStep(current: int, db: bool): (e: int)
    ensures e == 5 ==> db
    ensures e != current ==> current == 5 && e == 6
  {
    if current == 5 && !db then 6 else current
  }

  /** Which step screen the shell shows; steps outside 1..9 show nothing. */
  function StepScreen(step: int): (r: Option<string>)
    ensures r.Some? <==> 1 <= step <= 9
    ensures r.Some? ==> FindStep(step).Some? && r.value == FindStep(step).value.id
  {
    if 1 <= step <= 9 then Some(WIZARD_STEPS[step - 1].id) else None
  }

  /** The shell's layout decisions. */
  datatype Shell = Shell(effectiveStep: int, wide: bool, exportBanner: bool, screen: Option<string>)

  function ShellOf(s: ProjectState): (r: Shell)
    ensures r.wide <==> r.effectiveStep == 8
    ensures r.exportBanner <==> s.meta.highestStepReached >= 8 && r.effectiveStep != 8
    ensures r.screen.Some? <==> 1 <= r.effectiveStep <= 9
  {
    var e := EffectiveStep(s.meta.currentStep, DatabaseApplicable(s.architecture.layers));
    Shell(e, e == 8, s.meta.highestStepReached >= 8 && e != 8, StepScreen(e))
  }

  /** Skipping the deployment step asks for step 10, where the shell shows
      no step screen. */
  lemma SkipFromLastShowsNothing(db: bool)
    ensures SkipTarget(9) == Some(10) && StepScreen(EffectiveStep(10, db)).None?
  {
  }
}
