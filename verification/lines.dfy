/** Small list-of-lines helpers shared by the markdown renderers: JavaScript's
    `a || b` on strings, bullet lists and the `.filter((x) => x.trim())` idiom. */
module Lines {
  import opened Text

  /** The footer most documents end with, linking back to the overview. */
  const PROJECT_FOOTER := "*See [PROJECT.md]" + "(../PROJECT.md) for " + "project overview.*"

  /** `s || fallback`: the empty string is the only falsy string. */
  function OrElse(s: string, fallback: string): (r: string)
    ensures s != "" ==> r == s
    ensures s == "" ==> r == fallback
  {
    if s != "" then s else fallback
  }

  /** `xs.map((x) => prefix + x)` */
  function Prefixed(prefix: string, xs: seq<string>): (r: seq<string>)
    ensures |r| == |xs|
    ensures forall i | 0 <= i < |xs| :: r[i] == prefix + xs[i]
    ensures |prefix| > 0 ==> NoEmptyLine(r)
  {
    if xs == [] then [] else [prefix + xs[0]] + Prefixed(prefix, xs[1..])
  }

  /** `xs.map((x) => "- " + x)` */
  function Bullets(xs: seq<string>): (r: seq<string>)
    ensures |r| == |xs|
    ensures forall i | 0 <= i < |xs| :: r[i] == "- " + xs[i]
    ensures NoEmptyLine(r)
  {
    Prefixed("- ", xs)
  }

  /** `xs.filter((x) => x.trim())`: drops exactly the blank entries. */
  function KeepNonBlank(xs: seq<string>): (r: seq<string>)
    ensures |r| <= |xs|
    ensures forall i | 0 <= i < |r| :: !IsBlank(r[i]) && r[i] in xs
  {
    if xs == [] then []
    else if IsBlank(xs[0]) then KeepNonBlank(xs[1..])
    else [xs[0]] + KeepNonBlank(xs[1..])
  }

  /** Every non-blank entry survives the filter. */
  lemma {:induction false} KeepNonBlankKeeps(xs: seq<string>, x: string)
    requires x in xs && !IsBlank(x)
    ensures x in KeepNonBlank(xs)
  {
    if xs[0] != x {
      KeepNonBlankKeeps(xs[1..], x);
    }
  }

  /** The filter keeps the relative order of what it keeps. */
  lemma {:induction false} KeepNonBlankAppend(a: seq<string>, b: seq<string>)
    ensures KeepNonBlank(a + b) == KeepNonBlank(a) + KeepNonBlank(b)
  {
    if a == [] {
      assert a + b == b;
    } else {
      var ab := a + b;
      assert ab[0] == a[0] && ab[1..] == a[1..] + b;
      KeepNonBlankAppend(a[1..], b);
      if IsBlank(a[0]) {
        assert KeepNonBlank(ab) == KeepNonBlank(ab[1..]);
      } else {
        assert KeepNonBlank(ab) == [a[0]] + KeepNonBlank(ab[1..]);
      }
    }
  }

  /** `cond ? xs : [placeholder]` for the italic placeholder of an empty section. */
  function OrPlaceholder(xs: seq<string>, placeholder: string): (r: seq<string>)
    ensures |xs| > 0 ==> r == xs
    ensures |xs| == 0 ==> r == [placeholder]
    ensures NoEmptyLine(xs) && |placeholder| > 0 ==> NoEmptyLine(r)
  {
    if |xs| > 0 then xs else [placeholder]
  }

  /** `> ${n} ${noun}${n !== 1 ? "s" : ""} defined.`, the summary line of
      the index documents. */
  function Summary(n: nat, noun: string): string {
    "> " + NatToString(n) + " " + noun + PluralSuffix(n) + " defined."
  }

  /** No line of `xs` is empty, so an empty line can mark where a section ends. */
  predicate NoEmptyLine(xs: seq<string>) {
    forall i | 0 <= i < |xs| :: |xs[i]| > 0
  }

  /** The longest prefix of `xs` without an empty line: how a reader finds
      the body of a section that starts at the head of `xs`. */
  function LeadingRun(xs: seq<string>): (r: seq<string>)
    ensures |r| <= |xs| && r == xs[..|r|] && NoEmptyLine(r)
    ensures |r| == |xs| || |xs[|r|]| == 0
  {
    if xs == [] || |xs[0]| == 0 then []
    else
      var rest := LeadingRun(xs[1..]);
      assert xs[1..][..|rest|] == xs[1..|rest| + 1];
      [xs[0]] + rest
  }

  /** The longest suffix of `xs` without an empty line. */
  function TrailingRun(xs: seq<string>): (r: seq<string>)
    ensures |r| <= |xs| && r == xs[|xs| - |r|..] && NoEmptyLine(r)
    ensures |r| == |xs| || |xs[|xs| - |r| - 1]| == 0
  {
    if xs == [] || |xs[|xs| - 1]| == 0 then []
    else
      var init := xs[..|xs| - 1];
      var rest := TrailingRun(init);
      assert init[|init| - |rest|..] == xs[|xs| - 1 - |rest|..|xs| - 1];
      rest + [xs[|xs| - 1]]
  }

  /** A section body without empty lines, closed by an empty line, reads back whole. */
  lemma {:induction false} LeadingRunOfSection(body: seq<string>, rest: seq<string>)
    requires NoEmptyLine(body)
    ensures LeadingRun(body + [""] + rest) == body
  {
    if body != [] {
      LeadingRunOfSection(body[1..], rest);
      assert (body + [""] + rest)[1..] == body[1..] + [""] + rest;
    }
  }

  /** A last section body without empty lines, after an empty line, reads back whole. */
  lemma {:induction false} TrailingRunOfSection(before: seq<string>, body: seq<string>)
    requires NoEmptyLine(body)
    ensures TrailingRun(before + [""] + body) == body
  {
    var xs := before + [""] + body;
    if body != [] {
      var b := body[..|body| - 1];
      TrailingRunOfSection(before, b);
      assert xs[..|xs| - 1] == before + [""] + b;
      assert body == b + [body[|body| - 1]];
    }
  }

  /** The section body starting at line `k` of `xs` is `body`: its lines are
      non-empty and an empty line closes it. */
  predicate BodyAt(xs: seq<string>, k: nat, body: seq<string>) {
    NoEmptyLine(body) && k + |body| < |xs| && xs[k..k + |body|] == body && |xs[k + |body|]| == 0
  }

  /** The last section body of `xs` is `body`: an empty line opens it. */
  predicate LastBody(xs: seq<string>, body: seq<string>) {
    NoEmptyLine(body) && |body| < |xs| && xs[|xs| - |body|..] == body && |xs[|xs| - |body| - 1]| == 0
  }

  /** A reader that stops at the first empty line gets exactly the body back. */
  lemma BodyAtReads(xs: seq<string>, k: nat, body: seq<string>)
    requires BodyAt(xs, k, body)
    ensures LeadingRun(xs[k..]) == body
  {
    assert xs[k..] == body + [xs[k + |body|]] + xs[k + |body| + 1..];
    assert xs[k + |body|] == "";
    LeadingRunOfSection(body, xs[k + |body| + 1..]);
  }

  /** So a section body is determined by where it starts. */
  lemma BodyAtUnique(xs: seq<string>, k: nat, a: seq<string>, b: seq<string>)
    requires BodyAt(xs, k, a) && BodyAt(xs, k, b)
    ensures a == b
  {
    BodyAtReads(xs, k, a);
    BodyAtReads(xs, k, b);
  }

  /** A reader that walks back to the last empty line gets exactly the body back. */
  lemma LastBodyReads(xs: seq<string>, body: seq<string>)
    requires LastBody(xs, body)
    ensures TrailingRun(xs) == body
  {
    var k := |xs| - |body| - 1;
    assert xs == xs[..k] + [xs[k]] + body;
    assert xs[k] == "";
    TrailingRunOfSection(xs[..k], body);
  }

  /** The frame both index documents share: a title, a summary line, a rule,
      the table (or its placeholder) and a footer with a link back. */
  function IndexDoc(title: string, summary: string, table: seq<string>, footer: string): (r: seq<string>)
    requires NoEmptyLine(table)
    ensures |r| == 11 + |table|
    ensures r[..6] == [title, "", summary, "", "---", ""]
    ensures BodyAt(r, 6, table)
    ensures forall i | 0 <= i < |table| :: r[6 + i] == table[i]
    ensures r[|r| - 5..] == ["", "---", "", footer, ""]
  {
    [title, "", summary, "", "---", ""] + table + ["", "---", "", footer, ""]
  }
}
