/** The conventions step of the wizard (components/wizard/steps/step-conventions.tsx):
    which questions it asks, reading and choosing an answer, "Apply
    Recommended Defaults", the answered counter and the grouping of
    questions under their category headings. */
module ConventionsStep {
  import opened Wrappers
  import opened Project
  import opened Lines
  import opened ConventionCatalog
  import SmartDefaults
  import Reducer

  /** The questions shown: the catalog merge for the chosen framework, or for
      Next.js while none is chosen. */
  function QuestionsFor(cat: Catalog, ts: TechStack): (r: seq<ConventionQuestion>)
    ensures ts.framework == "" ==> r == ConventionsForStack(cat, "nextjs")
    ensures ts.framework != "" ==> r == ConventionsForStack(cat, ts.framework)
  {
    ConventionsForStack(cat, OrElse(ts.framework, "nextjs"))
  }

  function QuestionOf(d: Decision): string { d.questionId }

  // ---------------------------------------------------------------------
  // Reading an answer

  /** `decisions.find((d) => d.questionId === questionId)` */
  function Find(ds: seq<Decision>, qid: string): (r: Option<Decision>)
    ensures r.None? <==> forall i | 0 <= i < |ds| :: ds[i].questionId != qid
    ensures r.Some? ==> r.value in ds && r.value.questionId == qid
  {
    if ds == [] then None
    else if ds[0].questionId == qid then Some(ds[0])
    else Find(ds[1..], qid)
  }

  /** `getSelectedOption`: the option of the first decision for the
      question; nothing without one. */
  function Selected(ds: seq<Decision>, qid: string): (r: Option<string>)
    ensures (forall i | 0 <= i < |ds| :: ds[i].questionId != qid) ==> r.None?
    ensures r.Some? ==> exists i | 0 <= i < |ds| :: ds[i].questionId == qid && ds[i].selectedOptionId == r
  {
    match Find(ds, qid)
    case None => None
    case Some(d) => d.selectedOptionId
  }

  /** The first match of a concatenation is the first list's, if it has one. */
  lemma {:induction false} FindAppend(a: seq<Decision>, b: seq<Decision>, qid: string)
    ensures Find(a + b, qid) == if Find(a, qid).Some? then Find(a, qid) else Find(b, qid)
  {
    if a == [] {
      assert a + b == b;
    } else {
      assert (a + b)[0] == a[0] && (a + b)[1..] == a[1..] + b;
      FindAppend(a[1..], b, qid);
    }
  }

  /** Removing another question's decisions does not change what is found. */
  lemma {:induction false} FindWithout(ds: seq<Decision>, removed: string, qid: string)
    requires removed != qid
    ensures Find(Reducer.Without(ds, QuestionOf, removed), qid) == Find(ds, qid)
  {
    if ds != [] {
      FindWithout(ds[1..], removed, qid);
    }
  }

  // ---------------------------------------------------------------------
  // Choosing an answer

  /** `selectOption`: every earlier decision for the question is dropped and
      the new one appended with no custom answer. */
  function SelectOption(ds: seq<Decision>, qid: string, opt: string): (r: seq<Decision>)
    ensures |r| == |ds| - Reducer.Count(ds, QuestionOf, qid) + 1
    ensures r[|r| - 1] == Decision(qid, Some(opt), None)
    ensures forall i | 0 <= i < |r| - 1 :: r[i].questionId != qid && r[i] in ds
    ensures forall i | 0 <= i < |ds| && ds[i].questionId != qid :: ds[i] in r
  {
    Reducer.Without(ds, QuestionOf, qid) + [Decision(qid, Some(opt), None)]
  }

  /** After choosing, the question reads back the chosen option. */
  lemma SelectedAfterSelect(ds: seq<Decision>, qid: string, opt: string)
    ensures Selected(SelectOption(ds, qid, opt), qid) == Some(opt)
  {
    var kept := Reducer.Without(ds, QuestionOf, qid);
    FindAppend(kept, [Decision(qid, Some(opt), None)], qid);
  }

  /** Choosing an answer leaves every other question's answer as it was. */
  lemma SelectKeepsOthers(ds: seq<Decision>, qid: string, opt: string, other: string)
    requires other != qid
    ensures Selected(SelectOption(ds, qid, opt), other) == Selected(ds, other)
  {
    var kept := Reducer.Without(ds, QuestionOf, qid);
    FindAppend(kept, [Decision(qid, Some(opt), None)], other);
    FindWithout(ds, qid, other);
  }

  /** Choosing twice is choosing the second answer once. */
  lemma SelectLastWins(ds: seq<Decision>, qid: string, first: string, second: string)
    ensures SelectOption(SelectOption(ds, qid, first), qid, second) == SelectOption(ds, qid, second)
  {
    var kept := Reducer.Without(ds, QuestionOf, qid);
    var d := Decision(qid, Some(first), None);
    Reducer.WithoutAppend(kept, [d], QuestionOf, qid);
    Reducer.WithoutAbsent(ds, QuestionOf, qid);
    assert Reducer.Without([d], QuestionOf, qid) == [];
    assert kept + [] == kept;
  }

  /** The dispatch `selectOption` makes. */
  function SelectAction(ds: seq<Decision>, qid: string, opt: string): Reducer.Action {
    Reducer.SetConventions(Reducer.ConventionsPatch(Some(SelectOption(ds, qid, opt)), None))
  }

  /** Through the reducer the choice lands in the project and the custom
      conventions text is kept. */
  lemma SelectActionFacts(s: ProjectState, qid: string, opt: string, now: string, seed: Reducer.Fresh)
    ensures var s' := Reducer.Reduce(s, SelectAction(s.conventions.decisions, qid, opt), now, seed);
      && Selected(s'.conventions.decisions, qid) == Some(opt)
      && s'.conventions.customConventions == s.conventions.customConventions
  {
    SelectedAfterSelect(s.conventions.decisions, qid, opt);
  }

  // ---------------------------------------------------------------------
  // Recommended defaults

  /** `q.options.find((o) => o.isRecommended)` */
  function FirstRecommended(os: seq<ConventionOption>): (r: Option<ConventionOption>)
    ensures r.None? <==> forall i | 0 <= i < |os| :: !os[i].isRecommended
    ensures r.Some? ==> r.value in os && r.value.isRecommended
  {
    if os == [] then None
    else if os[0].isRecommended then Some(os[0])
    else FirstRecommended(os[1..])
  }

  /** The answer "Apply Recommended Defaults" gives one question: a non-empty
      smart default first, else the first recommended option, else none. */
  function Choice(q: ConventionQuestion, recs: map<string, string>): (r: Option<string>)
    ensures q.id in recs && recs[q.id] != "" ==> r == Some(recs[q.id])
    ensures !(q.id in recs && recs[q.id] != "") ==>
      (r.None? <==> forall i | 0 <= i < |q.options| :: !q.options[i].isRecommended)
    ensures !(q.id in recs && recs[q.id] != "") && r.Some? ==>
      exists i | 0 <= i < |q.options| :: q.options[i].isRecommended && q.options[i].id == r.value
  {
    if q.id in recs && recs[q.id] != "" then Some(recs[q.id])
    else match FirstRecommended(q.options)
      case None => None
      case Some(o) => Some(o.id)
  }

  /** `applyRecommended`'s list: one decision per question that has an
      answer, in question order, none for the others. */
  function Recommended(qs: seq<ConventionQuestion>, recs: map<string, string>): (r: seq<Decision>)
    ensures |r| <= |qs|
    ensures forall i | 0 <= i < |r| ::
      r[i].selectedOptionId.Some? && r[i].customAnswer.None? && r[i].questionId in Ids(qs)
  {
    if qs == [] then []
    else
      var head := match Choice(qs[0], recs)
        case None => []
        case Some(o) => [Decision(qs[0].id, Some(o), None)];
      head + Recommended(qs[1..], recs)
  }

  /** In a duplicate-free list the head's id is not used again. */
  lemma HeadIdFresh(qs: seq<ConventionQuestion>)
    requires qs != [] && UniqueIds(qs)
    ensures qs[0].id !in Ids(qs[1..]) && UniqueIds(qs[1..])
  {
    forall q | q in qs[1..]
      ensures q.id != qs[0].id
    {
      var j :| 0 <= j < |qs[1..]| && qs[1..][j] == q;
      assert qs[j + 1] == q;
    }
    forall i, j | 0 <= i < j < |qs[1..]|
      ensures qs[1..][i].id != qs[1..][j].id
    {
      assert qs[1..][i] == qs[i + 1] && qs[1..][j] == qs[j + 1];
    }
  }

  /** After applying the defaults every listed question reads back its
      recommended answer and no other question has one. */
  lemma {:induction false} RecommendedSelects(qs: seq<ConventionQuestion>, recs: map<string, string>, id: string)
    requires UniqueIds(qs)
    ensures id !in Ids(qs) ==> Selected(Recommended(qs, recs), id).None?
    ensures forall q | q in qs && q.id == id :: Selected(Recommended(qs, recs), id) == Choice(q, recs)
  {
    if qs != [] {
      HeadIdFresh(qs);
      var head := match Choice(qs[0], recs)
        case None => []
        case Some(o) => [Decision(qs[0].id, Some(o), None)];
      var rest := Recommended(qs[1..], recs);
      assert Recommended(qs, recs) == head + rest;
      FindAppend(head, rest, id);
      RecommendedSelects(qs[1..], recs, id);
      forall q | q in qs && q.id == id
        ensures Selected(Recommended(qs, recs), id) == Choice(q, recs)
      {
        if q == qs[0] {
          if head == [] {
            assert id !in Ids(qs[1..]);
          }
        } else {
          assert q in qs[1..];
          assert id != qs[0].id;
        }
      }
    }
  }

  /** `answeredCount`: the listed questions that have a selected option. */
  function AnsweredCount(qs: seq<ConventionQuestion>, ds: seq<Decision>): (n: nat)
    ensures n <= |qs|
    ensures n == |qs| <==> forall i | 0 <= i < |qs| :: Selected(ds, qs[i].id).Some?
    ensures n == 0 <==> forall i | 0 <= i < |qs| :: Selected(ds, qs[i].id).None?
  {
    if qs == [] then 0
    else (if Selected(ds, qs[0].id).Some? then 1 else 0) + AnsweredCount(qs[1..], ds)
  }

  /** Once the defaults are applied the counter shows one answer per
      decision made. */
  lemma {:induction false} AnsweredAfterRecommended(qs: seq<ConventionQuestion>, recs: map<string, string>, ds: seq<Decision>)
    requires forall i | 0 <= i < |qs| :: Selected(ds, qs[i].id) == Choice(qs[i], recs)
    ensures AnsweredCount(qs, ds) == |Recommended(qs, recs)|
  {
    if qs != [] {
      assert Selected(ds, qs[0].id) == Choice(qs[0], recs);
      AnsweredAfterRecommended(qs[1..], recs, ds);
    }
  }

  /** The dispatch "Apply Recommended Defaults" makes: the smart defaults
      come from the project's tech stack. */
  function ApplyRecommendedAction(s: ProjectState, cat: Catalog): Reducer.Action {
    var qs := QuestionsFor(cat, s.identity.techStack);
    var recs := SmartDefaults.GetSmartDefaults(s.identity.techStack).conventionRecommendations;
    Reducer.SetConventions(Reducer.ConventionsPatch(Some(Recommended(qs, recs)), None))
  }

  /** After applying the defaults the counter reads one answer per decision,
      and every question shows its recommended answer. */
  lemma ApplyRecommendedFacts(qs: seq<ConventionQuestion>, recs: map<string, string>)
    requires UniqueIds(qs)
    ensures AnsweredCount(qs, Recommended(qs, recs)) == |Recommended(qs, recs)|
    ensures forall i | 0 <= i < |qs| :: Selected(Recommended(qs, recs), qs[i].id) == Choice(qs[i], recs)
  {
    forall i | 0 <= i < |qs|
      ensures Selected(Recommended(qs, recs), qs[i].id) == Choice(qs[i], recs)
    {
      RecommendedSelects(qs, recs, qs[i].id);
    }
    AnsweredAfterRecommended(qs, recs, Recommended(qs, recs));
  }

  // ---------------------------------------------------------------------
  // Grouping by category

  /** The categories of a list in order of first appearance. */
  function Categories(qs: seq<ConventionQuestion>): seq<string> {
    if qs == [] then []
    else
      var p := Categories(qs[..|qs| - 1]);
      if qs[|qs| - 1].category in p then p else p + [qs[|qs| - 1].category]
  }

  /** The questions of one category, in list order. */
  function InCategory(qs: seq<ConventionQuestion>, c: string): seq<ConventionQuestion> {
    if qs == [] then []
    else
      var p := InCategory(qs[..|qs| - 1], c);
      if qs[|qs| - 1].category == c then p + [qs[|qs| - 1]] else p
  }

  /** Every category that occurs is a heading, and nothing else is; each
      group holds exactly its category's questions. */
  lemma {:induction false} GroupingMembers(qs: seq<ConventionQuestion>, c: string)
    ensures c in Categories(qs) <==> exists i | 0 <= i < |qs| :: qs[i].category == c
    ensures forall q :: q in InCategory(qs, c) <==> q in qs && q.category == c
  {
    if qs != [] {
      var init := qs[..|qs| - 1];
      GroupingMembers(init, c);
      assert qs == init + [qs[|qs| - 1]];
      assert forall i | 0 <= i < |init| :: init[i] == qs[i];
    }
  }

  /** One more question extends the categories and its own group only. */
  lemma PrefixStep(qs: seq<ConventionQuestion>, k: nat)
    requires k < |qs|
    ensures var p := Categories(qs[..k]);
      Categories(qs[..k + 1]) == if qs[k].category in p then p else p + [qs[k].category]
    ensures forall c :: InCategory(qs[..k + 1], c) == InCategory(qs[..k], c) + (if qs[k].category == c then [qs[k]] else [])
  {
    assert qs[..k + 1][..k] == qs[..k];
  }

  predicate Distinct(cs: seq<string>) {
    forall i, j | 0 <= i < j < |cs| :: cs[i] != cs[j]
  }

  /** What the grouping loop keeps after the first `k` questions. */
  predicate GroupedUpTo(qs: seq<ConventionQuestion>, k: nat, cats: seq<string>, groups: seq<seq<ConventionQuestion>>)
    requires k <= |qs|
  {
    && cats == Categories(qs[..k]) && Distinct(cats)
    && |groups| == |cats|
    && forall i | 0 <= i < |cats| :: groups[i] == InCategory(qs[..k], cats[i])
  }

  /** One turn of the loop: `groups[q.category] ??= []`, then push. */
  method AddQuestion(qs: seq<ConventionQuestion>, k: nat, cats: seq<string>, groups: seq<seq<ConventionQuestion>>)
    returns (cats': seq<string>, groups': seq<seq<ConventionQuestion>>)
    requires k < |qs| && GroupedUpTo(qs, k, cats, groups)
    ensures GroupedUpTo(qs, k + 1, cats', groups')
  {
    var q := qs[k];
    var j := 0;
    while j < |cats| && cats[j] != q.category
      invariant 0 <= j <= |cats|
      invariant forall i | 0 <= i < j :: cats[i] != q.category
    {
      j := j + 1;
    }
    if j < |cats| {
      JoinGroupStep(qs, k, cats, groups, j);
      cats', groups' := cats, groups[j := groups[j] + [q]];
    } else {
      NewGroupStep(qs, k, cats, groups);
      cats', groups' := cats + [q.category], groups + [[q]];
    }
  }

  /** A question whose category already has a heading joins that group. */
  lemma JoinGroupStep(qs: seq<ConventionQuestion>, k: nat, cats: seq<string>, groups: seq<seq<ConventionQuestion>>, j: nat)
    requires k < |qs| && GroupedUpTo(qs, k, cats, groups)
    requires j < |cats| && cats[j] == qs[k].category
    ensures GroupedUpTo(qs, k + 1, cats, groups[j := groups[j] + [qs[k]]])
  {
    PrefixStep(qs, k);
  }

  /** A question of a category not seen yet opens a new heading and group. */
  lemma NewGroupStep(qs: seq<ConventionQuestion>, k: nat, cats: seq<string>, groups: seq<seq<ConventionQuestion>>)
    requires k < |qs| && GroupedUpTo(qs, k, cats, groups)
    requires forall i | 0 <= i < |cats| :: cats[i] != qs[k].category
    ensures GroupedUpTo(qs, k + 1, cats + [qs[k].category], groups + [[qs[k]]])
  {
    var c, prior := qs[k].category, qs[..k];
    PrefixStep(qs, k);
    GroupingMembers(prior, c);
    assert InCategory(prior, c) == [] by {
      if InCategory(prior, c) != [] {
        assert InCategory(prior, c)[0] in InCategory(prior, c);
      }
    }
  }

  /** The category headings and their questions, built the way the screen's
      loop fills its record: a new heading on a category's first question,
      later questions appended under it. */
  method Group(qs: seq<ConventionQuestion>) returns (cats: seq<string>, groups: seq<seq<ConventionQuestion>>)
    ensures cats == Categories(qs) && Distinct(cats)
    ensures |groups| == |cats|
    ensures forall i | 0 <= i < |cats| :: groups[i] == InCategory(qs, cats[i])
  {
    cats, groups := [], [];
    var k := 0;
    while k < |qs|
      invariant 0 <= k <= |qs|
      invariant GroupedUpTo(qs, k, cats, groups)
    {
      cats, groups := AddQuestion(qs, k, cats, groups);
      k := k + 1;
    }
    assert qs[..k] == qs;
  }
}
