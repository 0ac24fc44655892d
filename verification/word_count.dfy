/** The word counter of the document generator (markdown/index.ts) and the
    whitespace split that both it and the example data use. */
module Words {
  import opened Text

  /** The characters `/[#|`\-*>_\[\]()]/g` turns into a space before counting. */
  predicate IsMarkdownSymbol(c: char) {
    c == '#' || c == '|' || c == '`' || c == '-' || c == '*' || c == '>'
    || c == '_' || c == '[' || c == ']' || c == '(' || c == ')'
  }

  /** A character that separates words for the generator's counter. */
  predicate IsSeparator(c: char) {
    IsSpace(c) || IsMarkdownSymbol(c)
  }

  /** `text.replace(/[#|`\-*>_\[\]()]/g, " ")` */
  function BlankSymbols(s: string): (r: string)
    ensures |r| == |s|
    ensures forall i | 0 <= i < |s| :: r[i] == (if IsMarkdownSymbol(s[i]) then ' ' else s[i])
  {
    if s == [] then [] else [if IsMarkdownSymbol(s[0]) then ' ' else s[0]] + BlankSymbols(s[1..])
  }

  /** `s.split(/\s+/)`: the pieces between maximal white-space runs, with an
      empty first (last) piece when `s` starts (ends) with white space. */
  function SplitWs(s: string): (r: seq<string>)
    ensures |r| >= 1
    ensures forall i | 0 <= i < |r| :: forall j | 0 <= j < |r[i]| :: !IsSpace(r[i][j])
    decreases |s|
  {
    if s == [] then [""]
    else if IsSpace(s[0]) then [""] + SplitWs(TrimStart(s[1..]))
    else
      var rest := SplitWs(s[1..]);
      [[s[0]] + rest[0]] + rest[1..]
  }

  /** `.filter((w) => w.length > 0)` */
  function NonEmpty(pieces: seq<string>): (r: seq<string>)
    ensures |r| <= |pieces|
    ensures forall i | 0 <= i < |r| :: r[i] != ""
  {
    if pieces == [] then []
    else if pieces[0] == "" then NonEmpty(pieces[1..])
    else [pieces[0]] + NonEmpty(pieces[1..])
  }

  /** `wordCount` of markdown/index.ts. */
  function WordCount(text: string): nat {
    |NonEmpty(SplitWs(BlankSymbols(text)))|
  }

  /** The reference counter: the number of word starts, i.e. of non-space
      characters that do not follow a non-space character. `inWord` says
      whether the character before `s` was part of a word. */
  function CountFrom(s: string, inWord: bool): nat
    decreases |s|
  {
    if s == [] then 0
    else if IsSpace(s[0]) then CountFrom(s[1..], false)
    else (if inWord then 0 else 1) + CountFrom(s[1..], true)
  }

  lemma {:induction false} CountSkipsSpaces(s: string)
    ensures CountFrom(s, false) == CountFrom(TrimStart(s), false)
    decreases |s|
  {
    if s != [] && IsSpace(s[0]) {
      CountSkipsSpaces(s[1..]);
    }
  }

  /** Splitting and dropping empty pieces counts exactly the word starts;
      the pieces after the first count the word starts after position 0. */
  lemma {:induction false} SplitCountsWordStarts(s: string)
    ensures |NonEmpty(SplitWs(s))| == CountFrom(s, false)
    ensures |NonEmpty(SplitWs(s)[1..])| == CountFrom(s, true)
    decreases |s|
  {
    if s == [] {
      assert SplitWs(s)[1..] == [];
    } else if IsSpace(s[0]) {
      var t := TrimStart(s[1..]);
      SplitCountsWordStarts(t);
      CountSkipsSpaces(s[1..]);
      assert SplitWs(s) == [""] + SplitWs(t);
      assert SplitWs(s)[1..] == SplitWs(t);
      assert ([""] + SplitWs(t))[1..] == SplitWs(t);
    } else {
      var rest := SplitWs(s[1..]);
      SplitCountsWordStarts(s[1..]);
      var first := [s[0]] + rest[0];
      assert SplitWs(s) == [first] + rest[1..];
      assert ([first] + rest[1..])[1..] == rest[1..];
    }
  }

  /** The generator's count, stated without splitting. */
  lemma WordCountIsWordStarts(text: string)
    ensures WordCount(text) == CountFrom(BlankSymbols(text), false)
  {
    SplitCountsWordStarts(BlankSymbols(text));
  }

  /** No words exactly when every character is white space or a symbol. */
  lemma {:induction false} CountZeroIffSeparators(s: string)
    ensures CountFrom(s, false) == 0 <==> IsBlank(s)
    decreases |s|
  {
    if s != [] {
      CountZeroIffSeparators(s[1..]);
      if IsSpace(s[0]) {
        assert IsBlank(s) <==> IsBlank(s[1..]);
      }
    }
  }

  lemma WordCountZeroIff(text: string)
    ensures WordCount(text) == 0 <==> forall i | 0 <= i < |text| :: IsSeparator(text[i])
  {
    WordCountIsWordStarts(text);
    var b := BlankSymbols(text);
    CountZeroIffSeparators(b);
    assert IsBlank(b) <==> forall i | 0 <= i < |text| :: IsSeparator(text[i]) by {
      forall i | 0 <= i < |text| ensures IsSpace(b[i]) <==> IsSeparator(text[i]) {
      }
    }
  }

  /** Being inside a word can only hide a word start. */
  lemma {:induction false} CountInWordBounds(s: string)
    ensures CountFrom(s, true) <= CountFrom(s, false) <= CountFrom(s, true) + 1
    decreases |s|
  {
    if s != [] && !IsSpace(s[0]) {
      CountInWordBounds(s[1..]);
    }
  }

  /** Deleting one character never raises the count of word starts. */
  lemma {:induction false} CountDeleteMonotone(s: string, i: nat, inWord: bool)
    requires i < |s|
    ensures CountFrom(s[..i] + s[i + 1..], inWord) <= CountFrom(s, inWord)
    decreases i
  {
    var d := s[..i] + s[i + 1..];
    if i == 0 {
      assert d == s[1..];
      CountInWordBounds(s[1..]);
    } else {
      CountDeleteMonotone(s[1..], i - 1, !IsSpace(s[0]));
      assert d[0] == s[0];
      assert d[1..] == s[1..][..i - 1] + s[1..][i..];
    }
  }

  /** Deleting a character from the text never increases its word count. */
  lemma WordCountDeleteMonotone(text: string, i: nat)
    requires i < |text|
    ensures WordCount(text[..i] + text[i + 1..]) <= WordCount(text)
  {
    var b := BlankSymbols(text);
    var d := text[..i] + text[i + 1..];
    assert BlankSymbols(d) == b[..i] + b[i + 1..];
    WordCountIsWordStarts(text);
    WordCountIsWordStarts(d);
    CountDeleteMonotone(b, i, false);
  }

  /** The example data's `wordCount`: `content.split(/\s+/).length`, which
      keeps the empty pieces at the edges and does not blank the symbols. */
  function ExampleWordCount(content: string): (r: nat)
    ensures r >= 1
  {
    |SplitWs(content)|
  }

  /** A heading marker is a word for the example data but not for the
      generator, and leading white space is a word for the example data. */
  lemma ExampleCountDiffersFromWordCount()
    ensures ExampleWordCount("# A") == 2 && WordCount("# A") == 1
    ensures ExampleWordCount(" A") == 2 && WordCount(" A") == 1
  {
    HeadingMarkerCounts();
    LeadingSpaceCounts();
  }

  lemma HeadingMarkerCounts()
    ensures ExampleWordCount("# A") == 2 && WordCount("# A") == 1
  {
    WordCountIsWordStarts("# A");
    BlankHashA();
    CountSpaceSpaceA();
    SplitHashA();
  }

  lemma LeadingSpaceCounts()
    ensures ExampleWordCount(" A") == 2 && WordCount(" A") == 1
  {
    WordCountIsWordStarts(" A");
    BlankSpaceA();
    CountSpaceA();
    SplitSpaceA();
  }

  lemma BlankHashA()
    ensures BlankSymbols("# A") == "  A"
  {
    assert IsMarkdownSymbol('#') && !IsMarkdownSymbol(' ') && !IsMarkdownSymbol('A');
  }

  lemma BlankSpaceA()
    ensures BlankSymbols(" A") == " A"
  {
    assert !IsMarkdownSymbol(' ') && !IsMarkdownSymbol('A');
  }

  lemma CountA()
    ensures CountFrom("A", false) == 1
  {
    assert "A"[0] == 'A' && !IsSpace('A') && "A"[1..] == "";
  }

  lemma CountSpaceA()
    ensures CountFrom(" A", false) == 1
  {
    CountA();
    assert " A"[0] == ' ' && " A"[1..] == "A";
  }

  lemma CountSpaceSpaceA()
    ensures CountFrom("  A", false) == 1
  {
    CountSpaceA();
    assert "  A"[0] == ' ' && "  A"[1..] == " A";
  }

  lemma SplitA()
    ensures SplitWs("A") == ["A"]
  {
    assert "A"[0] == 'A' && !IsSpace('A') && "A"[1..] == "" && SplitWs("") == [""];
    assert ['A'] + "" == "A";
  }

  lemma SplitSpaceA()
    ensures SplitWs(" A") == ["", "A"]
  {
    SplitA();
    assert " A"[0] == ' ' && " A"[1..] == "A" && TrimStart("A") == "A";
  }

  lemma SplitHashA()
    ensures SplitWs("# A") == ["#", "A"]
  {
    SplitSpaceA();
    assert "# A"[0] == '#' && !IsSpace('#') && "# A"[1..] == " A";
    assert ["", "A"][0] == "" && ["", "A"][1..] == ["A"];
    HashPiece();
  }

  lemma HashPiece()
    ensures [['#'] + ""] + ["A"] == ["#", "A"]
  {
    assert ['#'] + "" == "#";
  }
}
