/** `docs/CONVENTIONS-QUICKREF.md` and `docs/CONVENTIONS.md`
    (markdown/generate-conventions.ts). Both files resolve each decision
    against the merged catalog the same way; a decision whose question or
    option cannot be found is dropped from both. */
module ConventionsMd {
  import opened Wrappers
  import opened Text
  import opened Lines
  import opened Project
  import opened ConventionCatalog

  const NO_CONVENTIONS := "_No conventions " + "configured._"
  const ADDITIONAL := "**Additional:**"
  const ADDITIONAL_HEADING := "## Additional " + "Conventions"
  const QUICK_HEAD := [
    "# Conventions — " + "Quick Reference", "",
    "> The most critical " + "rules for this project. " + "Read this at the start " + "of every session.",
    "> For full detail, " + "see `CONVENTIONS.md`.", "", "---", ""]
  const QUICK_TAIL := ["", "*Full detail: " + "[CONVENTIONS.md]" + "(CONVENTIONS.md) · " + "Project: [PROJECT.md]" + "(../PROJECT.md)*", ""]
  const FULL_HEAD := [
    "# Conventions", "",
    "> These conventions must " + "be followed in all code " + "written for this project.",
    "> Read this file at " + "the start of every " + "coding session.", "", "---", ""]
  const FULL_TAIL := ["", PROJECT_FOOTER, ""]

  /** `qs.find((q) => q.id === id)` */
  function FindQuestion(qs: seq<ConventionQuestion>, id: string): (r: Option<ConventionQuestion>)
    ensures r.Some? ==> r.value in qs && r.value.id == id
    ensures r.None? <==> forall i | 0 <= i < |qs| :: qs[i].id != id
  {
    if qs == [] then None
    else if qs[0].id == id then Some(qs[0])
    else FindQuestion(qs[1..], id)
  }

  /** `options.find((o) => o.id === selectedOptionId)`: a null selection
      matches no option. */
  function FindSelected(opts: seq<ConventionOption>, id: Option<string>): (r: Option<ConventionOption>)
    ensures r.Some? ==> r.value in opts && id == Some(r.value.id)
    ensures r.None? <==> id.None? || forall i | 0 <= i < |opts| :: opts[i].id != id.value
  {
    if id.None? || opts == [] then None
    else if opts[0].id == id.value then Some(opts[0])
    else FindSelected(opts[1..], id)
  }

  /** What both files keep of a decision: the question's category and text,
      and the chosen option's generated text and label. */
  datatype Resolved = Resolved(category: string, question: string, generatedText: string, caption: string)

  /** The `.map(...)` callback of both generators before `.filter(Boolean)`. */
  function Resolve(all: seq<ConventionQuestion>, d: Decision): (r: Option<Resolved>)
    ensures r.None? <==> FindQuestion(all, d.questionId).None?
                         || FindSelected(FindQuestion(all, d.questionId).value.options, d.selectedOptionId).None?
    ensures r.Some? ==> exists q, o | q in all && o in q.options ::
              q.id == d.questionId && d.selectedOptionId == Some(o.id)
              && r.value == Resolved(q.category, q.question, o.generatedText, o.caption)
  {
    match FindQuestion(all, d.questionId)
    case None => None
    case Some(q) =>
      match FindSelected(q.options, d.selectedOptionId)
      case None => None
      case Some(o) => Some(Resolved(q.category, q.question, o.generatedText, o.caption))
  }

  /** One decision's contribution: its resolution, or nothing. */
  function ResolveOne(all: seq<ConventionQuestion>, d: Decision): (r: seq<Resolved>)
    ensures |r| <= 1
  {
    match Resolve(all, d) case Some(x) => [x] case None => []
  }

  /** The resolved decisions, in decision order. */
  function ResolveAll(all: seq<ConventionQuestion>, ds: seq<Decision>): (r: seq<Resolved>)
    ensures |r| <= |ds|
  {
    if ds == [] then [] else ResolveOne(all, ds[0]) + ResolveAll(all, ds[1..])
  }

  /** Resolution keeps the decision order: it distributes over concatenation. */
  lemma {:induction false} ResolveAllAppend(all: seq<ConventionQuestion>, a: seq<Decision>, b: seq<Decision>)
    ensures ResolveAll(all, a + b) == ResolveAll(all, a) + ResolveAll(all, b)
  {
    if a == [] {
      assert a + b == b;
    } else {
      var ab := a + b;
      assert ab[0] == a[0] && ab[1..] == a[1..] + b;
      ResolveAllAppend(all, a[1..], b);
      calc {
        ResolveAll(all, ab);
        ResolveOne(all, a[0]) + ResolveAll(all, a[1..] + b);
        ResolveOne(all, a[0]) + (ResolveAll(all, a[1..]) + ResolveAll(all, b));
        (ResolveOne(all, a[0]) + ResolveAll(all, a[1..])) + ResolveAll(all, b);
      }
    }
  }

  /** A single decision survives exactly when it resolves. */
  lemma ResolveAllSingle(all: seq<ConventionQuestion>, d: Decision)
    ensures Resolve(all, d).None? ==> ResolveAll(all, [d]) == []
    ensures Resolve(all, d).Some? ==> ResolveAll(all, [d]) == [Resolve(all, d).value]
  {
    assert [d][1..] == [];
  }

  // ---------------------------------------------------------------------
  // The quick-reference line of a decision

  /** The index of the first non-blank line, or `|lines|` when all are blank. */
  function FirstNonBlank(lines: seq<string>): (k: nat)
    ensures k <= |lines|
    ensures forall j | 0 <= j < k :: IsBlank(lines[j])
    ensures k < |lines| ==> !IsBlank(lines[k])
  {
    if lines == [] then 0
    else if !IsBlank(lines[0]) then 0
    else 1 + FirstNonBlank(lines[1..])
  }

  /** `text.split("\n").map((l) => l.trim()).find((l) => l.length > 0) ?? label` */
  function FirstLineOr(text: string, fallback: string): (r: string)
    ensures var ls := Split(text, '\n'); var k := FirstNonBlank(ls);
      && (k < |ls| ==> r == Trim(ls[k]) && r != "")
      && (k == |ls| ==> r == fallback)
  {
    var ls := Split(text, '\n');
    var k := FirstNonBlank(ls);
    if k < |ls| then Trim(ls[k]) else fallback
  }

  function DropHashes(s: string): (r: string)
    ensures |r| <= |s| && r == s[|s| - |r|..]
    ensures r == [] || r[0] != '#'
    ensures forall i | 0 <= i < |s| - |r| :: s[i] == '#'
  {
    if |s| > 0 && s[0] == '#' then DropHashes(s[1..]) else s
  }

  // `.replace(/^#+\s*/, "")`: a leading run of `#` and the white space
  // after it are removed; a line that does not open with `#` is kept.
  function StripHeading(s: string): (r: string)
    ensures |r| <= |s| && r == s[|s| - |r|..]
    ensures (|s| == 0 || s[0] != '#') ==> r == s
    ensures |s| > 0 && s[0] == '#' ==> |r| < |s| && (r == [] || !IsSpace(r[0]))
  {
    if |s| > 0 && s[0] == '#' then TrimStart(DropHashes(s)) else s
  }

  /** No two adjacent asterisks. */
  predicate NoDoubleStar(s: string) {
    forall i, j | 0 <= i && j == i + 1 < |s| :: !(s[i] == '*' && s[j] == '*')
  }

  // `.replace(/\*\*/g, "")`: every `**`, matched left to right without
  // overlap, is removed. What is left has no `**` at all.
  function RemoveBold(s: string): (r: string)
    ensures |r| <= |s|
    ensures NoDoubleStar(r)
    ensures |s| > 0 && s[0] != '*' ==> |r| > 0 && r[0] == s[0]
  {
    if |s| >= 2 && s[0] == '*' && s[1] == '*' then RemoveBold(s[2..])
    else if s == [] then []
    else
      var rest := RemoveBold(s[1..]);
      var r := [s[0]] + rest;
      assert forall i | 1 <= i < |r| :: r[i] == rest[i - 1];
      r
  }

  /** Text without `**` passes `RemoveBold` unchanged, so it is idempotent. */
  lemma {:induction false} RemoveBoldKeeps(s: string)
    requires NoDoubleStar(s)
    ensures RemoveBold(s) == s
  {
    if s != [] {
      assert NoDoubleStar(s[1..]) by {
        forall i, j | 0 <= i && j == i + 1 < |s[1..]| ensures !(s[1..][i] == '*' && s[1..][j] == '*') {
          assert s[1..][i] == s[i + 1] && s[1..][j] == s[j + 1];
        }
      }
      RemoveBoldKeeps(s[1..]);
    }
  }

  lemma RemoveBoldIdempotent(s: string)
    ensures RemoveBold(RemoveBold(s)) == RemoveBold(s)
  {
    RemoveBoldKeeps(RemoveBold(s));
  }

  /** A piece of text without `**` has no `**` in any of its slices. */
  lemma SliceNoDoubleStar(s: string, i: nat, j: nat)
    requires NoDoubleStar(s) && i <= j <= |s|
    ensures NoDoubleStar(s[i..j])
  {
    forall k, l | 0 <= k && l == k + 1 < j - i ensures !(s[i..j][k] == '*' && s[i..j][l] == '*') {
      assert s[i..j][k] == s[i + k] && s[i..j][l] == s[i + l];
    }
  }

  /** The cleaned first line: no heading marks, no `**`, trimmed. */
  function Clean(line: string): (r: string)
    ensures NoDoubleStar(r)
    ensures r == "" || (!IsSpace(r[0]) && !IsSpace(r[|r| - 1]))
  {
    var b := RemoveBold(StripHeading(line));
    TrimNoDoubleStar(b);
    Trim(b)
  }

  /** Trimming cannot create a `**`, and leaves no space at either end. */
  lemma TrimNoDoubleStar(b: string)
    requires NoDoubleStar(b)
    ensures NoDoubleStar(Trim(b))
    ensures Trim(b) == "" || (!IsSpace(Trim(b)[0]) && !IsSpace(Trim(b)[|Trim(b)| - 1]))
  {
    var a := TrimStart(b);
    SliceNoDoubleStar(b, |b| - |a|, |b|);
    var t := TrimEnd(a);
    SliceNoDoubleStar(a, 0, |t|);
  }

  /** A trimmed line without heading marks or `**` is already clean. */
  lemma CleanKeepsPlainLine(line: string)
    requires NoDoubleStar(line)
    requires line == [] || (line[0] != '#' && !IsSpace(line[0]) && !IsSpace(line[|line| - 1]))
    ensures Clean(line) == line
  {
    RemoveBoldKeeps(line);
  }

  /** `- **<category>:** <cleaned first line>` */
  function QuickRule(x: Resolved): (r: string)
    ensures |r| > 0 && r[0] == '-'
  {
    "- **" + x.category + ":** " + Clean(FirstLineOr(x.generatedText, x.caption))
  }

  /** A rule bullet names the category in bold, then the cleaned first
      line of the option's text, which holds no `**`. */
  lemma QuickRuleShape(x: Resolved)
    ensures var p := "- **" + x.category + ":** ";
      && StartsWith(QuickRule(x), p)
      && QuickRule(x)[|p|..] == Clean(FirstLineOr(x.generatedText, x.caption))
      && NoDoubleStar(QuickRule(x)[|p|..])
  {
    var p := "- **" + x.category + ":** ";
    var r := QuickRule(x);
    assert r[..|p|] == p && r[|p|..] == Clean(FirstLineOr(x.generatedText, x.caption));
  }

  function QuickRules(rs: seq<Resolved>): (r: seq<string>)
    ensures |r| == |rs| && NoEmptyLine(r)
    ensures forall i | 0 <= i < |rs| :: r[i] == QuickRule(rs[i]) && r[i][0] == '-'
  {
    seq(|rs|, i requires 0 <= i < |rs| => QuickRule(rs[i]))
  }

  // ---------------------------------------------------------------------
  // The Additional block of the quick reference

  // `.replace(/^[-•*]\s*/, "")`: one leading bullet mark and the white
  // space after it.
  function StripBullet(l: string): (r: string)
    ensures |r| <= |l| && r == l[|l| - |r|..]
    ensures (|l| == 0 || l[0] !in "-•*") ==> r == l
    ensures |l| > 0 && l[0] in "-•*" ==> |r| < |l| && (r == [] || !IsSpace(r[0]))
  {
    if |l| > 0 && l[0] in "-•*" then TrimStart(l[1..]) else l
  }

  function Min(a: nat, b: nat): nat {
    if a <= b then a else b
  }

  // `custom.trim().split("\n").filter((l) => l.trim()).slice(0, 5)
  // .map((l) => "- " + l.replace(/^[-•*]\s*/, "").trim())`: the first five
  // non-blank lines, each as a bullet.
  function CustomLines(custom: string): (r: seq<string>)
    ensures |r| <= 5 && NoEmptyLine(r)
  {
    var kept := KeepNonBlank(Split(Trim(custom), '\n'));
    var first := kept[..Min(5, |kept|)];
    seq(|first|, i requires 0 <= i < |first| => "- " + Trim(StripBullet(first[i])))
  }

  /** The block holds the first five non-blank lines of the trimmed custom
      text, in order, each stripped of one bullet mark and trimmed. */
  lemma CustomLinesSpec(custom: string)
    ensures var kept := KeepNonBlank(Split(Trim(custom), '\n'));
      && |CustomLines(custom)| == Min(5, |kept|)
      && forall i | 0 <= i < |CustomLines(custom)| :: CustomLines(custom)[i] == "- " + Trim(StripBullet(kept[i]))
  {
    var kept := KeepNonBlank(Split(Trim(custom), '\n'));
    var first := kept[..Min(5, |kept|)];
    assert forall i | 0 <= i < |first| :: first[i] == kept[i];
  }

  function QuickExtra(custom: string): (r: seq<string>)
    ensures IsBlank(custom) ==> r == []
    ensures !IsBlank(custom) ==> r == [ADDITIONAL, ""] + CustomLines(custom) + [""]
  {
    if IsBlank(custom) then [] else [ADDITIONAL, ""] + CustomLines(custom) + [""]
  }

  /** The frame both convention files share: a fixed seven-line head, the
      body, one more line, an optional block and a fixed three-line tail. */
  function Frame(head: seq<string>, body: seq<string>, gap: seq<string>, extra: seq<string>, tail: seq<string>): (r: seq<string>)
    requires |head| == 7 && |tail| == 3
    ensures |r| == 10 + |body| + |gap| + |extra|
    ensures r[..7] == head && r[7..7 + |body|] == body
    ensures r[7 + |body|..7 + |body| + |gap|] == gap
    ensures r[7 + |body| + |gap|..|r| - 3] == extra
    ensures r[|r| - 3..] == tail
  {
    head + body + gap + extra + tail
  }

  /** The quick reference around its two variable parts: the rule bullets
      and the optional Additional block. */
  function QuickDoc(rules: seq<string>, extra: seq<string>): (r: seq<string>)
    requires forall i | 0 <= i < |rules| :: |rules[i]| > 0 && rules[i][0] == '-'
    requires |extra| == 0 || (|extra| >= 3 && extra[0] == ADDITIONAL)
    ensures |r| == 11 + (if |rules| > 0 then |rules| else 1) + |extra|
    ensures r[..7] == QUICK_HEAD
    ensures r[7] == NO_CONVENTIONS <==> |rules| == 0
    ensures |rules| > 0 ==> r[7..7 + |rules|] == rules
    ensures var k := 8 + (if |rules| > 0 then |rules| else 1);
      && r[k - 1] == ""
      && (r[k] == ADDITIONAL <==> |extra| > 0)
      && r[k..|r| - 3] == extra
    ensures r[|r| - 3..] == QUICK_TAIL
  {
    var body := OrPlaceholder(rules, NO_CONVENTIONS);
    var r := Frame(QUICK_HEAD, body, [""], extra, QUICK_TAIL);
    assert |rules| > 0 ==> r[7] == rules[0];
    assert r[8 + |body|..|r| - 3] == extra;
    r
  }

  /** `generateConventionsQuickRefMd`: the placeholder stands in for the
      rules exactly when no decision resolves, and the Additional block
      appears exactly when the custom conventions are not blank. */
  function QuickRefLines(all: seq<ConventionQuestion>, conv: Conventions): (r: seq<string>)
    ensures var n := |ResolveAll(all, conv.decisions)|;
      |r| == 11 + (if n > 0 then n else 1) + |QuickExtra(conv.customConventions)|
    ensures r[..7] == QUICK_HEAD
    ensures r[7] == NO_CONVENTIONS <==> |ResolveAll(all, conv.decisions)| == 0
    ensures var n := |ResolveAll(all, conv.decisions)|;
      && (r[8 + (if n > 0 then n else 1)] == ADDITIONAL <==> !IsBlank(conv.customConventions))
      && r[8 + (if n > 0 then n else 1)..|r| - 3] == QuickExtra(conv.customConventions)
    ensures r[|r| - 3..] == QUICK_TAIL
  {
    QuickDoc(QuickRules(ResolveAll(all, conv.decisions)), QuickExtra(conv.customConventions))
  }

  /** The rules are one bullet per resolved decision, in decision order. */
  lemma QuickRefRules(all: seq<ConventionQuestion>, conv: Conventions)
    ensures var rules := QuickRules(ResolveAll(all, conv.decisions));
      var r := QuickRefLines(all, conv);
      |rules| > 0 ==> r[7..7 + |rules|] == rules
  {
  }

  function QuickRefText(all: seq<ConventionQuestion>, conv: Conventions): string {
    Join(QuickRefLines(all, conv), "\n")
  }

  // ---------------------------------------------------------------------
  // Grouping by category for the full file

  /** One `grouped[category]` entry: the generated texts in decision order. */
  datatype Group = Group(category: string, texts: seq<string>)

  /** The grouping loop's step: append to the category's group, or open a
      new group at the end. */
  function Insert(gs: seq<Group>, c: string, t: string): (r: seq<Group>)
    ensures |r| == |gs| || |r| == |gs| + 1
  {
    if gs == [] then [Group(c, [t])]
    else if gs[0].category == c then [gs[0].(texts := gs[0].texts + [t])] + gs[1..]
    else [gs[0]] + Insert(gs[1..], c, t)
  }

  /** The `for (const d of resolvedDecisions)` loop. */
  function GroupAll(rs: seq<Resolved>): (r: seq<Group>)
    decreases |rs|
  {
    if rs == [] then []
    else
      var last := rs[|rs| - 1];
      Insert(GroupAll(rs[..|rs| - 1]), last.category, last.generatedText)
  }

  /** Reference: the texts of the decisions of category `c`, in order. */
  function TextsOf(rs: seq<Resolved>, c: string): (r: seq<string>)
    ensures |r| <= |rs|
    decreases |rs|
  {
    if rs == [] then []
    else
      var last := rs[|rs| - 1];
      TextsOf(rs[..|rs| - 1], c) + (if last.category == c then [last.generatedText] else [])
  }

  /** `grouped[c] ?? []` */
  function Lookup(gs: seq<Group>, c: string): seq<string> {
    if gs == [] then []
    else if gs[0].category == c then gs[0].texts
    else Lookup(gs[1..], c)
  }

  function Categories(gs: seq<Group>): (r: seq<string>)
    ensures |r| == |gs|
    ensures forall i | 0 <= i < |gs| :: r[i] == gs[i].category
  {
    seq(|gs|, i requires 0 <= i < |gs| => gs[i].category)
  }

  /** Reference: each category once, in order of first appearance. */
  function FirstAppearances(rs: seq<Resolved>): (r: seq<string>)
    decreases |rs|
  {
    if rs == [] then []
    else
      var init := FirstAppearances(rs[..|rs| - 1]);
      var c := rs[|rs| - 1].category;
      if c in init then init else init + [c]
  }

  predicate Distinct(cs: seq<string>) {
    forall i, j | 0 <= i < j < |cs| :: cs[i] != cs[j]
  }

  predicate NoEmptyGroup(gs: seq<Group>) {
    forall i | 0 <= i < |gs| :: |gs[i].texts| > 0
  }

  /** Inserting appends `t` to the group of `c` and nothing else. */
  lemma {:induction false} InsertLookup(gs: seq<Group>, c: string, t: string, d: string)
    ensures Lookup(Insert(gs, c, t), d) == Lookup(gs, d) + (if c == d then [t] else [])
  {
    if gs != [] && gs[0].category != c {
      InsertLookup(gs[1..], c, t, d);
    }
  }

  /** Inserting adds `c` at the end of the category list when it is new,
      and keeps the groups non-empty. */
  lemma {:induction false} InsertCategories(gs: seq<Group>, c: string, t: string)
    requires NoEmptyGroup(gs)
    ensures Categories(Insert(gs, c, t)) == if c in Categories(gs) then Categories(gs) else Categories(gs) + [c]
    ensures NoEmptyGroup(Insert(gs, c, t))
  {
    InsertCategoryList(gs, c, t);
    InsertNonEmpty(gs, c, t);
  }

  lemma {:induction false} InsertCategoryList(gs: seq<Group>, c: string, t: string)
    ensures Categories(Insert(gs, c, t)) == if c in Categories(gs) then Categories(gs) else Categories(gs) + [c]
  {
    if gs != [] {
      var g, rest := gs[0], gs[1..];
      assert gs == [g] + rest;
      CategoriesCons(g, rest);
      if g.category == c {
        CategoriesCons(g.(texts := g.texts + [t]), rest);
      } else {
        InsertCategoryList(rest, c, t);
        CategoriesCons(g, Insert(rest, c, t));
      }
    }
  }

  lemma CategoriesCons(g: Group, gs: seq<Group>)
    ensures Categories([g] + gs) == [g.category] + Categories(gs)
  {
    assert Categories([g] + gs)[1..] == Categories(gs);
  }

  lemma {:induction false} InsertNonEmpty(gs: seq<Group>, c: string, t: string)
    requires NoEmptyGroup(gs)
    ensures NoEmptyGroup(Insert(gs, c, t))
  {
    if gs != [] && gs[0].category != c {
      InsertNonEmpty(gs[1..], c, t);
      assert Insert(gs, c, t) == [gs[0]] + Insert(gs[1..], c, t);
    }
  }

  /** The groups are exactly the categories in order of first appearance,
      none is empty, and each holds exactly its decisions' texts in order. */
  lemma {:induction false} GroupAllSpec(rs: seq<Resolved>)
    ensures Categories(GroupAll(rs)) == FirstAppearances(rs)
    ensures NoEmptyGroup(GroupAll(rs))
    ensures forall c :: Lookup(GroupAll(rs), c) == TextsOf(rs, c)
  {
    if rs != [] {
      var init := rs[..|rs| - 1];
      var last := rs[|rs| - 1];
      GroupAllSpec(init);
      InsertCategories(GroupAll(init), last.category, last.generatedText);
      forall c ensures Lookup(GroupAll(rs), c) == TextsOf(rs, c) {
        InsertLookup(GroupAll(init), last.category, last.generatedText, c);
      }
    }
  }

  /** First appearances never repeat a category. */
  lemma {:induction false} FirstAppearancesDistinct(rs: seq<Resolved>)
    ensures Distinct(FirstAppearances(rs))
    ensures forall c :: c in FirstAppearances(rs) <==> exists i | 0 <= i < |rs| :: rs[i].category == c
  {
    if rs != [] {
      var init := rs[..|rs| - 1];
      var last := rs[|rs| - 1].category;
      FirstAppearancesDistinct(init);
      AddOnce(FirstAppearances(init), last, FirstAppearances(rs));
      forall c ensures c in FirstAppearances(rs) <==> exists i | 0 <= i < |rs| :: rs[i].category == c {
        HasCategorySplit(rs, init, c);
      }
    }
  }

  /** Appending a category only when it is new keeps a list distinct. */
  lemma AddOnce(cs: seq<string>, c: string, r: seq<string>)
    requires Distinct(cs)
    requires c in cs ==> r == cs
    requires c !in cs ==> r == cs + [c]
    ensures Distinct(r)
    ensures forall x :: x in r <==> x in cs || x == c
  {
  }

  /** Some decision has category `c` exactly when an earlier one or the last one does. */
  lemma HasCategorySplit(rs: seq<Resolved>, init: seq<Resolved>, c: string)
    requires rs != [] && init == rs[..|rs| - 1]
    ensures (exists i | 0 <= i < |rs| :: rs[i].category == c)
        <==> (exists i | 0 <= i < |init| :: init[i].category == c) || rs[|rs| - 1].category == c
  {
    if exists i | 0 <= i < |rs| :: rs[i].category == c {
      var i :| 0 <= i < |rs| && rs[i].category == c;
      if i < |init| {
        assert init[i].category == c;
      }
    }
    if exists i | 0 <= i < |init| :: init[i].category == c {
      var i :| 0 <= i < |init| && init[i].category == c;
      assert rs[i].category == c;
    }
  }

  /** The number of texts across all groups. */
  function TotalTexts(gs: seq<Group>): nat {
    if gs == [] then 0 else |gs[0].texts| + TotalTexts(gs[1..])
  }

  lemma {:induction false} InsertTotal(gs: seq<Group>, c: string, t: string)
    ensures TotalTexts(Insert(gs, c, t)) == TotalTexts(gs) + 1
  {
    if gs != [] && gs[0].category != c {
      InsertTotal(gs[1..], c, t);
    }
  }

  /** Grouping loses no decision and adds none. */
  lemma {:induction false} GroupAllTotal(rs: seq<Resolved>)
    ensures TotalTexts(GroupAll(rs)) == |rs|
  {
    if rs != [] {
      var last := rs[|rs| - 1];
      GroupAllTotal(rs[..|rs| - 1]);
      InsertTotal(GroupAll(rs[..|rs| - 1]), last.category, last.generatedText);
    }
  }

  /** `## ${category}\n\n${texts.join("\n\n")}` */
  function Section(g: Group): (r: string)
    ensures |r| > 0 && r[0] == '#'
  {
    "## " + g.category + "\n\n" + Join(g.texts, "\n\n")
  }

  function Sections(gs: seq<Group>): (r: seq<string>)
    ensures |r| == |gs|
    ensures forall i | 0 <= i < |gs| :: r[i] == Section(gs[i])
  {
    seq(|gs|, i requires 0 <= i < |gs| => Section(gs[i]))
  }

  /** `sections.flatMap((s) => [s, "", "---", ""])` */
  function Spaced(ss: seq<string>): (r: seq<string>)
    ensures |r| == 4 * |ss|
    ensures forall i | 0 <= i < |ss| ::
              r[4 * i] == ss[i] && r[4 * i + 1] == "" && r[4 * i + 2] == "---" && r[4 * i + 3] == ""
  {
    seq(4 * |ss|, i requires 0 <= i < 4 * |ss| =>
      if i % 4 == 0 then ss[i / 4] else if i % 4 == 2 then "---" else "")
  }

  function FullExtra(custom: string): (r: seq<string>)
    ensures IsBlank(custom) ==> r == []
    ensures !IsBlank(custom) ==> r == [ADDITIONAL_HEADING, "", Trim(custom), ""]
  {
    if IsBlank(custom) then [] else [ADDITIONAL_HEADING, "", Trim(custom), ""]
  }

  /** The frame of the full file: the head, the placeholder exactly when
      there are no sections, the custom block at `k` and the tail. */
  predicate FullFrame(r: seq<string>, g: nat, extra: seq<string>) {
    var k := 7 + (if g > 0 then 4 * g else 2);
    && |r| == k + |extra| + 3
    && r[..7] == FULL_HEAD
    && (r[7] == NO_CONVENTIONS <==> g == 0)
    && r[k..|r| - 3] == extra
    && (r[k] == ADDITIONAL_HEADING <==> |extra| > 0)
    && r[|r| - 3..] == FULL_TAIL
  }

  /** Section `i` sits at line `7 + 4i`, followed by its rule two lines on. */
  predicate SectionsAt(r: seq<string>, sections: seq<string>) {
    forall i | 0 <= i < |sections| :: 9 + 4 * i < |r| && r[7 + 4 * i] == sections[i] && r[9 + 4 * i] == "---"
  }

  /** The full file around its two variable parts: the category sections
      and the optional custom block. */
  function FullDoc(sections: seq<string>, extra: seq<string>): (r: seq<string>)
    requires forall i | 0 <= i < |sections| :: |sections[i]| > 0 && sections[i][0] == '#'
    requires |extra| == 0 || (|extra| == 4 && extra[0] == ADDITIONAL_HEADING)
    ensures FullFrame(r, |sections|, extra)
    ensures SectionsAt(r, sections)
  {
    var body := if |sections| > 0 then Spaced(sections) else [NO_CONVENTIONS, ""];
    var r := Frame(FULL_HEAD, body, [], extra, FULL_TAIL);
    SpacedAt(r, sections);
    FrameIsFull(sections, body, extra);
    r
  }

  /** The frame around the sections (or the placeholder) and the custom
      block has the full file's shape. */
  lemma FrameIsFull(sections: seq<string>, body: seq<string>, extra: seq<string>)
    requires forall i | 0 <= i < |sections| :: |sections[i]| > 0 && sections[i][0] == '#'
    requires |extra| == 0 || (|extra| == 4 && extra[0] == ADDITIONAL_HEADING)
    requires body == if |sections| > 0 then Spaced(sections) else [NO_CONVENTIONS, ""]
    ensures FullFrame(Frame(FULL_HEAD, body, [], extra, FULL_TAIL), |sections|, extra)
  {
    var r := Frame(FULL_HEAD, body, [], extra, FULL_TAIL);
    assert r[7 + |body|..|r| - 3] == extra;
    assert r[7] == body[0];
    assert NO_CONVENTIONS[0] == '_';
  }

  /** The spaced sections read back at their lines. */
  lemma SpacedAt(r: seq<string>, sections: seq<string>)
    requires |sections| > 0 ==> 7 + 4 * |sections| <= |r| && r[7..7 + 4 * |sections|] == Spaced(sections)
    ensures SectionsAt(r, sections)
  {
    var body := Spaced(sections);
    forall i | 0 <= i < |sections| ensures 9 + 4 * i < |r| && r[7 + 4 * i] == sections[i] && r[9 + 4 * i] == "---" {
      assert r[7 + 4 * i] == r[7..7 + |body|][4 * i];
      assert r[9 + 4 * i] == r[7..7 + |body|][4 * i + 2];
    }
  }

  /** `generateConventionsMd`: one section per category in order of first
      appearance (see `GroupAllSpec`), the placeholder exactly when no
      decision resolves, then the trimmed custom conventions exactly when
      they are not blank. */
  function FullLines(all: seq<ConventionQuestion>, conv: Conventions): (r: seq<string>)
    ensures FullFrame(r, |GroupAll(ResolveAll(all, conv.decisions))|, FullExtra(conv.customConventions))
    ensures SectionsAt(r, Sections(GroupAll(ResolveAll(all, conv.decisions))))
  {
    FullDoc(Sections(GroupAll(ResolveAll(all, conv.decisions))), FullExtra(conv.customConventions))
  }

  function ConventionsText(all: seq<ConventionQuestion>, conv: Conventions): string {
    Join(FullLines(all, conv), "\n")
  }

  /** The two files agree: the quick reference has one rule per generated
      text in the full file's sections, and both show the placeholder in
      the same case. */
  lemma QuickRefMatchesFull(all: seq<ConventionQuestion>, conv: Conventions)
    ensures var rs := ResolveAll(all, conv.decisions);
      && |QuickRules(rs)| == TotalTexts(GroupAll(rs))
      && (QuickRefLines(all, conv)[7] == NO_CONVENTIONS <==> FullLines(all, conv)[7] == NO_CONVENTIONS)
  {
    var rs := ResolveAll(all, conv.decisions);
    GroupAllTotal(rs);
    if rs != [] {
      GroupAllSpec(rs);
      assert rs[0].category in FirstAppearances(rs) by {
        FirstAppearancesDistinct(rs);
      }
    }
  }
}
