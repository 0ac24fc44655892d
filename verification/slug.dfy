/** The three slug rules of the wizard.
    - the project slug (step-project-identity.tsx): lower-case, every run of
      characters outside `[a-z0-9]` becomes one `-`, then ALL leading and
      trailing hyphens go (`/^-+|-+$/g`);
    - the task-name slug (markdown/index.ts, generate-features.ts,
      generate-tasks.ts) and the chat `add_feature` slug: the same, but the
      final regex is `/(^-|-$)/g`, which removes at most one hyphen per edge;
    - the feature slug of the wizard's feature step: deletes characters
      outside `[a-z0-9\s-]`, turns white-space runs into `-`, collapses hyphen
      runs, and never strips the edges. */
module Slug {
  import opened Text

  /** The character classes whose runs the slug regexes replace:
      `[^a-z0-9]`, `\s` and `-`. */
  datatype CharClass = NotAlnum | Space | Hyphen

  predicate InClass(k: CharClass, c: char) {
    match k
    case NotAlnum => !IsLowerAlnum(c)
    case Space => IsSpace(c)
    case Hyphen => c == '-'
  }

  /** Skips the leading run of characters in class `p`. */
  function SkipRun(s: string, p: CharClass): (r: string)
    ensures |r| <= |s| && r == s[|s| - |r|..]
    ensures r == [] || !InClass(p, r[0])
    ensures forall i | 0 <= i < |s| - |r| :: InClass(p, s[i])
  {
    if |s| > 0 && InClass(p, s[0]) then SkipRun(s[1..], p) else s
  }

  /** `s.replace(/P+/g, c)`: every maximal run of characters satisfying `p`
      becomes the single character `c`; every other character is kept. */
  function ReplaceRuns(s: string, p: CharClass, c: char): (r: string)
    ensures |r| == 0 <==> |s| == 0
    ensures |s| > 0 && !InClass(p, s[0]) ==> r[0] == s[0]
    ensures |s| > 0 && InClass(p, s[0]) ==> r[0] == c
    decreases |s|
  {
    if s == [] then []
    else if !InClass(p, s[0]) then [s[0]] + ReplaceRuns(s[1..], p, c)
    else [c] + ReplaceRuns(SkipRun(s[1..], p), p, c)
  }

  /** Every character of `r` is `c` or a character of `s` outside class `p`. */
  predicate CharsFrom(r: string, s: string, p: CharClass, c: char) {
    forall i | 0 <= i < |r| :: r[i] == c || (!InClass(p, r[i]) && r[i] in s)
  }

  /** No two neighbours of `r` are both in class `p`. */
  predicate NoAdjacent(r: string, p: CharClass) {
    forall i, j | 0 <= i && j == i + 1 < |r| :: !(InClass(p, r[i]) && InClass(p, r[j]))
  }

  /** After the replacement no run of class `p` is longer than one, and every
      character came from the input or is the replacement. */
  lemma ReplaceRunsShape(s: string, p: CharClass, c: char)
    ensures CharsFrom(ReplaceRuns(s, p, c), s, p, c)
    ensures NoAdjacent(ReplaceRuns(s, p, c), p)
  {
    ReplaceRunsChars(s, p, c);
    ReplaceRunsNoAdjacent(s, p, c);
  }

  lemma {:induction false} ReplaceRunsChars(s: string, p: CharClass, c: char)
    ensures CharsFrom(ReplaceRuns(s, p, c), s, p, c)
    decreases |s|
  {
    if s != [] {
      var r := ReplaceRuns(s, p, c);
      var t := if !InClass(p, s[0]) then s[1..] else SkipRun(s[1..], p);
      var rest := ReplaceRuns(t, p, c);
      ReplaceRunsChars(t, p, c);
      assert r[1..] == rest;
      forall i | 0 <= i < |r| ensures r[i] == c || (!InClass(p, r[i]) && r[i] in s) {
        if i > 0 {
          assert r[i] == rest[i - 1];
          assert rest[i - 1] in t ==> rest[i - 1] in s;
        }
      }
    }
  }

  lemma {:induction false} ReplaceRunsNoAdjacent(s: string, p: CharClass, c: char)
    ensures NoAdjacent(ReplaceRuns(s, p, c), p)
    decreases |s|
  {
    if s != [] {
      var r := ReplaceRuns(s, p, c);
      var t := if !InClass(p, s[0]) then s[1..] else SkipRun(s[1..], p);
      var rest := ReplaceRuns(t, p, c);
      ReplaceRunsNoAdjacent(t, p, c);
      assert r[1..] == rest;
      forall i | 0 <= i < |r| - 1 ensures !(InClass(p, r[i]) && InClass(p, r[i + 1])) {
        if i > 0 {
          assert r[i] == rest[i - 1] && r[i + 1] == rest[i];
        } else if InClass(p, s[0]) {
          assert r[1] == rest[0] == t[0];
        }
      }
    }
  }

  /** The characters a slug may hold: `[a-z0-9-]`. */
  predicate IsSlugChar(c: char) {
    IsLowerAlnum(c) || c == '-'
  }

  predicate SlugChars(s: string) {
    forall i | 0 <= i < |s| :: IsSlugChar(s[i])
  }

  predicate NoDoubleHyphen(s: string) {
    forall i, j | 0 <= i && j == i + 1 < |s| :: !(s[i] == '-' && s[j] == '-')
  }

  predicate NoEdgeHyphen(s: string) {
    s == [] || (s[0] != '-' && s[|s| - 1] != '-')
  }

  /** A well-formed slug: what the project-slug rule promises to produce. */
  predicate IsSlug(s: string) {
    SlugChars(s) && NoDoubleHyphen(s) && NoEdgeHyphen(s)
  }

  /** `.replace(/[^a-z0-9]+/g, "-")` */
  function HyphenateNonAlnum(s: string): (r: string)
    ensures SlugChars(r) && NoDoubleHyphen(r)
  {
    var r := ReplaceRuns(s, NotAlnum, '-');
    ReplaceRunsShape(s, NotAlnum, '-');
    r
  }

  /** `.replace(/^-+|-+$/g, "")` */
  function StripAllEdgeHyphens(s: string): (r: string)
    ensures |r| <= |s|
  {
    var a := SkipRun(s, Hyphen);
    DropTrailingHyphens(a)
  }

  function DropTrailingHyphens(s: string): (r: string)
    ensures |r| <= |s| && r == s[..|r|]
    ensures r == [] || r[|r| - 1] != '-'
  {
    if |s| > 0 && s[|s| - 1] == '-' then DropTrailingHyphens(s[..|s| - 1]) else s
  }

  /** `.replace(/(^-|-$)/g, "")`: at most one hyphen goes from each edge. */
  function StripOneEdgeHyphen(s: string): (r: string)
  {
    DropOneTrailing(DropOneLeading(s))
  }

  /** The `^-` alternative: one leading hyphen goes. */
  function DropOneLeading(s: string): (r: string)
  {
    if |s| > 0 && s[0] == '-' then s[1..] else s
  }

  /** The `-$` alternative: one trailing hyphen goes. */
  function DropOneTrailing(s: string): (r: string)
  {
    if |s| > 0 && s[|s| - 1] == '-' then s[..|s| - 1] else s
  }

  /** The project slug of step-project-identity.tsx. */
  function ProjectSlug(name: string): string {
    StripAllEdgeHyphens(HyphenateNonAlnum(Lower(name)))
  }

  /** The slug of markdown/index.ts `taskSlug` (for a non-empty name) and of
      the chat `add_feature` tool. */
  function NameSlug(name: string): string {
    StripOneEdgeHyphen(HyphenateNonAlnum(Lower(name)))
  }

  /** `/[^a-z0-9\s-]/g` removes exactly the characters this rejects. */
  predicate FeatureSlugKeeps(c: char) {
    IsLowerAlnum(c) || IsSpace(c) || c == '-'
  }

  /** `.replace(/[^a-z0-9\s-]/g, "")` */
  function DropDisallowed(s: string): (r: string)
    ensures forall i | 0 <= i < |r| :: FeatureSlugKeeps(r[i])
  {
    if s == [] then []
    else if FeatureSlugKeeps(s[0]) then [s[0]] + DropDisallowed(s[1..])
    else DropDisallowed(s[1..])
  }

  /** The feature slug of step-features.tsx `handleNameChange`. */
  function FeatureSlug(name: string): string {
    Trim(ReplaceRuns(ReplaceRuns(DropDisallowed(Lower(name)), Space, '-'), Hyphen, '-'))
  }

  lemma SubstringKeepsShape(s: string, i: nat, j: nat)
    requires i <= j <= |s|
    requires SlugChars(s) && NoDoubleHyphen(s)
    ensures SlugChars(s[i..j]) && NoDoubleHyphen(s[i..j])
  {
    assert forall k | 0 <= k < j - i :: s[i..j][k] == s[i + k];
  }

  /** The project slug is a well-formed slug. */
  lemma ProjectSlugIsSlug(name: string)
    ensures IsSlug(ProjectSlug(name))
  {
    var h := HyphenateNonAlnum(Lower(name));
    var a := SkipRun(h, Hyphen);
    var r := DropTrailingHyphens(a);
    SubstringKeepsShape(h, |h| - |a|, |h|);
    SubstringKeepsShape(a, 0, |r|);
    assert r == [] || r[0] == a[0];
  }

  /** On the output of the hyphenation step the two edge-stripping regexes
      agree, so the project slug and the task/chat slug are one function. */
  lemma NameSlugIsProjectSlug(name: string)
    ensures NameSlug(name) == ProjectSlug(name)
  {
    StripsAgree(HyphenateNonAlnum(Lower(name)));
  }

  /** Without doubled hyphens there is at most one hyphen at each edge, so
      stripping one and stripping all agree. */
  lemma StripsAgree(h: string)
    requires NoDoubleHyphen(h)
    ensures StripOneEdgeHyphen(h) == StripAllEdgeHyphens(h)
  {
    assert |h| > 1 ==> !(h[0] == '-' && h[1] == '-');
    assert |h| > 1 ==> !(h[|h| - 2] == '-' && h[|h| - 1] == '-');
    StripsAgreeAtEdges(h);
  }

  /** Stripping one and stripping all agree when neither edge holds two
      hyphens. */
  lemma StripsAgreeAtEdges(h: string)
    requires |h| > 1 && h[0] == '-' ==> h[1] != '-'
    requires |h| > 1 && h[|h| - 1] == '-' ==> h[|h| - 2] != '-'
    ensures StripOneEdgeHyphen(h) == StripAllEdgeHyphens(h)
  {
    var a := DropOneLeading(h);
    SkipOneHyphen(h);
    assert |a| > 1 ==> a[|a| - 1] == h[|h| - 1] && a[|a| - 2] == h[|h| - 2];
    DropOneHyphen(a);
  }

  /** A leading hyphen not followed by another is the whole leading run. */
  lemma SkipOneHyphen(h: string)
    requires |h| > 1 && h[0] == '-' ==> h[1] != '-'
    ensures SkipRun(h, Hyphen) == DropOneLeading(h)
  {
    if |h| > 0 && h[0] == '-' {
      var t := h[1..];
      assert InClass(Hyphen, h[0]);
      assert SkipRun(h, Hyphen) == SkipRun(t, Hyphen);
      assert t == [] || !InClass(Hyphen, t[0]);
      assert SkipRun(t, Hyphen) == t;
    }
  }

  /** A trailing hyphen not preceded by another is the whole trailing run. */
  lemma DropOneHyphen(a: string)
    requires |a| > 1 && a[|a| - 1] == '-' ==> a[|a| - 2] != '-'
    ensures DropTrailingHyphens(a) == DropOneTrailing(a)
  {
    if |a| > 0 && a[|a| - 1] == '-' {
      var b := a[..|a| - 1];
      assert b == [] || b[|b| - 1] != '-';
      assert DropTrailingHyphens(b) == b;
    }
  }

  lemma {:induction false} LowerOfSlugChars(s: string)
    requires SlugChars(s)
    ensures Lower(s) == s
  {
    assert forall i | 0 <= i < |s| :: Lower(s)[i] == s[i];
  }

  lemma {:induction false} HyphenateFixesSlugShape(s: string)
    requires SlugChars(s) && NoDoubleHyphen(s) && (s == [] || s[|s| - 1] != '-')
    ensures ReplaceRuns(s, NotAlnum, '-') == s
    decreases |s|
  {
    if s != [] {
      SubstringKeepsShape(s, 1, |s|);
      if IsLowerAlnum(s[0]) {
        HyphenateFixesSlugShape(s[1..]);
      } else {
        assert |s| > 1 && s[1] != '-';
        assert SkipRun(s[1..], NotAlnum) == s[1..];
        HyphenateFixesSlugShape(s[1..]);
      }
    }
  }

  /** Every well-formed slug is its own project slug. */
  lemma ProjectSlugFixesSlugs(s: string)
    requires IsSlug(s)
    ensures ProjectSlug(s) == s
  {
    LowerOfSlugChars(s);
    HyphenateFixesSlugShape(s);
    assert SkipRun(s, Hyphen) == s;
  }

  /** The project slug is idempotent. */
  lemma ProjectSlugIdempotent(name: string)
    ensures ProjectSlug(ProjectSlug(name)) == ProjectSlug(name)
  {
    ProjectSlugIsSlug(name);
    ProjectSlugFixesSlugs(ProjectSlug(name));
  }

  /** The feature slug holds only `[a-z0-9-]` and never two hyphens in a row. */
  lemma FeatureSlugShape(name: string)
    ensures SlugChars(FeatureSlug(name)) && NoDoubleHyphen(FeatureSlug(name))
  {
    var d := DropDisallowed(Lower(name));
    var h := ReplaceRuns(d, Space, '-');
    var c := ReplaceRuns(h, Hyphen, '-');
    ReplaceRunsShape(d, Space, '-');
    assert SlugChars(h) by {
      forall i | 0 <= i < |h| ensures IsSlugChar(h[i]) {
        if h[i] != '-' {
          assert h[i] in d;
        }
      }
    }
    ReplaceRunsShape(h, Hyphen, '-');
    assert SlugChars(c) by {
      forall i | 0 <= i < |c| ensures IsSlugChar(c[i]) {
        if c[i] != '-' {
          assert c[i] in h;
        }
      }
    }
    assert c == [] || (!IsSpace(c[0]) && !IsSpace(c[|c| - 1]));
  }

  /** The feature rule keeps a hyphen made from leading white space, where
      the project rule strips it. */
  lemma FeatureSlugKeepsEdgeHyphen()
    ensures FeatureSlug(" a") == "-a" && ProjectSlug(" a") == "a"
  {
    LeadingSpaceDropDisallowed();
    LeadingSpaceToHyphen();
    LeadingHyphenKept();
    HyphenLetterTrimmed();
    LeadingSpaceHyphenated();
    LeadingHyphenStripped();
  }

  lemma HyphenLetterTrimmed()
    ensures Trim("-a") == "-a"
  {
    var s := "-a";
    assert s[0] == '-' && s[|s| - 1] == 'a';
    assert !IsSpace(s[0]) && !IsSpace(s[|s| - 1]);
  }

  lemma LeadingHyphenStripped()
    ensures StripAllEdgeHyphens("-a") == "a"
  {
    assert SkipRun("-a", Hyphen) == "a" by {
      assert "-a"[1..] == "a";
    }
    assert DropTrailingHyphens("a") == "a";
  }

  lemma LeadingSpaceDropDisallowed()
    ensures DropDisallowed(Lower(" a")) == " a"
  {
    assert Lower(" a") == " a";
    assert DropDisallowed("a") == "a";
  }

  lemma LeadingSpaceToHyphen()
    ensures ReplaceRuns(" a", Space, '-') == "-a"
  {
    assert " a"[1..] == "a";
    assert SkipRun("a", Space) == "a";
    assert ReplaceRuns("a", Space, '-') == "a";
  }

  lemma LeadingHyphenKept()
    ensures ReplaceRuns("-a", Hyphen, '-') == "-a"
  {
    assert "-a"[1..] == "a";
    assert SkipRun("a", Hyphen) == "a";
    assert ReplaceRuns("a", Hyphen, '-') == "a";
  }

  lemma LeadingSpaceHyphenated()
    ensures HyphenateNonAlnum(Lower(" a")) == "-a"
  {
    assert Lower(" a") == " a";
    assert " a"[1..] == "a";
    assert SkipRun("a", NotAlnum) == "a";
    assert ReplaceRuns("a", NotAlnum, '-') == "a";
  }

  /** The feature rule deletes punctuation where the project rule turns it
      into a hyphen. */
  lemma FeatureSlugDeletesPunctuation()
    ensures FeatureSlug("a_b") == "ab" && ProjectSlug("a_b") == "a-b"
  {
    FeatureSlugOfUnderscore();
    ProjectSlugOfUnderscore();
  }

  lemma FeatureSlugOfUnderscore()
    ensures FeatureSlug("a_b") == "ab"
  {
    UnderscoreDropped();
    PlainLettersKept();
    var s := "ab";
    assert !IsSpace(s[0]) && !IsSpace(s[|s| - 1]);
  }

  lemma ProjectSlugOfUnderscore()
    ensures ProjectSlug("a_b") == "a-b"
  {
    UnderscoreHyphenated();
    var s := "a-b";
    assert SkipRun(s, Hyphen) == s by {
      assert s[0] == 'a';
    }
    assert DropTrailingHyphens(s) == s by {
      assert s[|s| - 1] == 'b';
    }
  }

  lemma UnderscoreDropped()
    ensures DropDisallowed(Lower("a_b")) == "ab"
  {
    assert Lower("a_b") == "a_b";
    assert "a_b"[1..] == "_b" && "_b"[1..] == "b";
    assert DropDisallowed("b") == "b";
  }

  lemma PlainLettersKept()
    ensures ReplaceRuns("ab", Space, '-') == "ab"
    ensures ReplaceRuns("ab", Hyphen, '-') == "ab"
  {
    assert "ab"[1..] == "b";
    assert ReplaceRuns("b", Space, '-') == "b";
    assert ReplaceRuns("b", Hyphen, '-') == "b";
  }

  lemma UnderscoreHyphenated()
    ensures HyphenateNonAlnum(Lower("a_b")) == "a-b"
  {
    assert Lower("a_b") == "a_b";
    assert "a_b"[1..] == "_b" && "_b"[1..] == "b";
    assert SkipRun("b", NotAlnum) == "b";
    assert ReplaceRuns("b", NotAlnum, '-') == "b";
    assert ReplaceRuns("_b", NotAlnum, '-') == "-b";
  }
}
