/** The names the generator gives to task and feature documents: the task
    number label, the task slug and the two file names. The same definitions
    appear three times in the source (generate-features.ts,
    generate-tasks.ts and markdown/index.ts); they are one function here. */
module DocPaths {
  import opened Text
  import opened Slug
  import opened Project
  import opened Lines

  /** `task-${String(n).padStart(3, "0")}`. Task numbers are JavaScript
      numbers; only integers are modelled, negative ones included. */
  function FormatTaskNumber(n: int): (r: string)
    ensures StartsWith(r, "task-") && |r| >= 8
    ensures n >= 0 ==> AllDigits(r[5..]) && ParseDigits(r[5..]) == n
    ensures 0 <= n < 1000 ==> |r| == 8
    ensures '/' !in r
  {
    var digits := IntToString(n);
    var padded := PadStart(digits, 3, '0');
    PadKeepsValue(digits);
    assert forall i | 0 <= i < |digits| :: digits[i] != '/';
    assert ("task-" + padded)[5..] == padded;
    "task-" + padded
  }

  /** Zero padding keeps a digit string's value. */
  lemma PadKeepsValue(digits: string)
    ensures AllDigits(digits) ==>
      AllDigits(PadStart(digits, 3, '0')) && ParseDigits(PadStart(digits, 3, '0')) == ParseDigits(digits)
  {
    var padded := PadStart(digits, 3, '0');
    if AllDigits(digits) {
      assert padded == Repeat('0', |padded| - |digits|) + digits;
      LeadingZeros(|padded| - |digits|, digits);
    }
  }

  /** Distinct non-negative task numbers get distinct labels. */
  lemma FormatTaskNumberInjective(m: int, n: int)
    requires m >= 0 && n >= 0
    requires FormatTaskNumber(m) == FormatTaskNumber(n)
    ensures m == n
  {
  }

  /** `taskSlug(task)`: the label, then `-` and the name's slug when the name
      and its slug are both non-empty. */
  function TaskSlug(t: Task): (r: string)
    ensures StartsWith(r, FormatTaskNumber(t.taskNumber))
    ensures r == FormatTaskNumber(t.taskNumber) <==> ProjectSlug(t.name) == ""
    ensures r != FormatTaskNumber(t.taskNumber) ==>
              r == FormatTaskNumber(t.taskNumber) + "-" + ProjectSlug(t.name) && IsSlug(ProjectSlug(t.name))
    ensures |r| > |FormatTaskNumber(t.taskNumber)| ==> r[|FormatTaskNumber(t.taskNumber)|] == '-'
    ensures '/' !in r
  {
    var slug := if t.name != "" then NameSlug(t.name) else "";
    SlugPart(t.name);
    Hyphenated(FormatTaskNumber(t.taskNumber), slug)
  }

  /** The task label alone, or `label-slug` for a non-empty slug. */
  function Hyphenated(head: string, slug: string): (r: string)
    ensures StartsWith(r, head)
    ensures r == head <==> slug == ""
    ensures r != head ==> r == head + "-" + slug
    ensures |r| > |head| ==> r[|head|] == '-'
    ensures '/' !in head && '/' !in slug ==> '/' !in r
  {
    var r := head + (if slug != "" then "-" + slug else "");
    AppendKeepsPrefix(head, if slug != "" then "-" + slug else "");
    r
  }

  /** The slug part of a task slug is the project slug of its name. */
  lemma SlugPart(name: string)
    ensures (if name != "" then NameSlug(name) else "") == ProjectSlug(name)
    ensures IsSlug(ProjectSlug(name)) && '/' !in ProjectSlug(name)
  {
    NameSlugIsProjectSlug(name);
    ProjectSlugIsSlug(name);
    var p := ProjectSlug(name);
    assert forall i | 0 <= i < |p| :: IsSlugChar(p[i]);
    if name == "" {
      assert Lower(name) == "";
    }
  }

  lemma AppendKeepsPrefix(a: string, b: string)
    ensures StartsWith(a + b, a)
    ensures '/' !in a && '/' !in b ==> '/' !in a + b
  {
    assert (a + b)[..|a|] == a;
  }

  /** `${f.slug || "unnamed"}.md`, the feature's file inside `features/`. */
  function FeatureFile(f: Feature): (r: string)
    ensures f.slug != "" ==> r == f.slug + ".md"
    ensures f.slug == "" ==> r == "unnamed.md"
  {
    OrElse(f.slug, "unnamed") + ".md"
  }

  /** `${taskSlug(task)}.md`, the task's file inside `tasks/`. Right after
      the label comes `-` or the `.` of `.md`, never a digit. */
  function TaskFile(t: Task): (r: string)
    ensures var l := FormatTaskNumber(t.taskNumber);
      StartsWith(r, l) && |r| > |l| && (r[|l|] == '-' || r[|l|] == '.')
    ensures '/' !in r
    ensures |r| >= 3 && r[|r| - 3..] == ".md" && r[..|r| - 3] == TaskSlug(t)
  {
    var s := TaskSlug(t);
    AfterLabel(FormatTaskNumber(t.taskNumber), s);
    s + ".md"
  }

  lemma AfterLabel(l: string, s: string)
    requires StartsWith(s, l) && '/' !in s
    requires |s| > |l| ==> s[|l|] == '-'
    ensures StartsWith(s + ".md", l) && |s + ".md"| > |l|
    ensures (s + ".md")[|l|] == '-' || (s + ".md")[|l|] == '.'
    ensures '/' !in s + ".md"
  {
    assert (s + ".md")[..|l|] == s[..|l|];
  }

  /** Two labels that both open a file name followed by `-` or `.` have the
      same length: a longer label would put a digit where the other ends. */
  lemma SameLabelLength(la: string, lb: string, f: string)
    requires |la| >= 5 && |lb| >= 5 && AllDigits(la[5..]) && AllDigits(lb[5..])
    requires StartsWith(f, la) && |f| > |la| && (f[|la|] == '-' || f[|la|] == '.')
    requires StartsWith(f, lb) && |f| > |lb| && (f[|lb|] == '-' || f[|lb|] == '.')
    ensures |la| == |lb|
  {
  }

  /** Two tasks with distinct non-negative numbers never share a file, so
      no task document overwrites another. */
  lemma TaskFilesDistinct(a: Task, b: Task)
    requires a.taskNumber >= 0 && b.taskNumber >= 0 && a.taskNumber != b.taskNumber
    ensures TaskFile(a) != TaskFile(b)
  {
    var la, lb := FormatTaskNumber(a.taskNumber), FormatTaskNumber(b.taskNumber);
    var fa, fb := TaskFile(a), TaskFile(b);
    if fa == fb {
      SameLabelLength(la, lb, fa);
    }
  }
}
