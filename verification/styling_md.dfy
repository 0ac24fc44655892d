/** `docs/STYLING.md` (markdown/generate-styling.ts): the brand colors as a
    table, the fonts, the component library and optional free-form notes. */
module StylingMd {
  import opened Text
  import opened Lines
  import opened Project
  import opened TechStacks

  const COLORS_TABLE_HEAD := "| Name | Hex |"
  const COLORS_TABLE_RULE := "|------|-----|"
  const NO_COLORS := "_No colors defined._"
  const NO_FONTS := "_No fonts specified._"
  const NO_LIBRARY := "_None selected._"
  const NOTES_HEADING := "## Additional " + "Styling Notes"
  const STYLING_TAIL := ["", "---", "", PROJECT_FOOTER, ""]

  /** `colors.filter((c) => c.hex)` */
  function WithHex(cs: seq<BrandColor>): (r: seq<BrandColor>)
    ensures |r| <= |cs|
    ensures forall i | 0 <= i < |r| :: r[i] in cs && r[i].hex != ""
  {
    if cs == [] then []
    else if cs[0].hex != "" then [cs[0]] + WithHex(cs[1..])
    else WithHex(cs[1..])
  }

  /** Every color with a hex value is kept. */
  lemma {:induction false} WithHexKeeps(cs: seq<BrandColor>, c: BrandColor)
    requires c in cs && c.hex != ""
    ensures c in WithHex(cs)
  {
    if cs[0] != c {
      WithHexKeeps(cs[1..], c);
    }
  }

  /** The filter keeps the stored order: it distributes over concatenation. */
  lemma {:induction false} WithHexAppend(a: seq<BrandColor>, b: seq<BrandColor>)
    ensures WithHex(a + b) == WithHex(a) + WithHex(b)
  {
    if a == [] {
      assert a + b == b;
    } else {
      var ab := a + b;
      assert ab[0] == a[0] && ab[1..] == a[1..] + b;
      WithHexAppend(a[1..], b);
    }
  }

  /** `| ${name} | \`${hex}\` |` */
  function ColorRow(c: BrandColor): (r: string)
    ensures |r| > 0 && r[0] == '|'
  {
    "| " + c.name + " | `" + c.hex + "` |"
  }

  function ColorRows(cs: seq<BrandColor>): (r: seq<string>)
    ensures |r| == |WithHex(cs)| && NoEmptyLine(r)
    ensures forall i | 0 <= i < |r| :: r[i] == ColorRow(WithHex(cs)[i])
  {
    var kept := WithHex(cs);
    seq(|kept|, i requires 0 <= i < |kept| => ColorRow(kept[i]))
  }

  /** The Brand Colors section: a table with one row per color that has a
      hex value, or the placeholder when none has. */
  function ColorsBody(cs: seq<BrandColor>): (r: seq<string>)
    ensures NoEmptyLine(r) && |r| >= 1
    ensures |WithHex(cs)| > 0 ==> r == [COLORS_TABLE_HEAD, COLORS_TABLE_RULE] + ColorRows(cs)
    ensures |WithHex(cs)| == 0 ==> r == [NO_COLORS]
  {
    var rows := ColorRows(cs);
    if |rows| > 0 then [COLORS_TABLE_HEAD, COLORS_TABLE_RULE] + rows else [NO_COLORS]
  }

  /** The table is replaced by the placeholder exactly when no color has a
      hex value. */
  lemma NoColorsIffNoHex(cs: seq<BrandColor>)
    ensures WithHex(cs) == [] <==> forall c | c in cs :: c.hex == ""
  {
    if c :| c in cs && c.hex != "" {
      WithHexKeeps(cs, c);
    }
  }

  /** The three optional font bullets, in the order heading, body, mono. */
  function FontLines(f: Fonts): (r: seq<string>)
    ensures |r| <= 3 && NoEmptyLine(r)
    ensures |r| == (if f.heading != "" then 1 else 0) + (if f.body != "" then 1 else 0) + (if f.mono != "" then 1 else 0)
    ensures r == [] <==> f.heading == "" && f.body == "" && f.mono == ""
    ensures f.heading != "" ==> r[0] == "- **Headings:** " + f.heading
    ensures f.body != "" ==> "- **Body:** " + f.body in r
    ensures f.mono != "" ==> r[|r| - 1] == "- **Monospace:** " + f.mono
  {
    (if f.heading != "" then ["- **Headings:** " + f.heading] else [])
    + (if f.body != "" then ["- **Body:** " + f.body] else [])
    + (if f.mono != "" then ["- **Monospace:** " + f.mono] else [])
  }

  function FontsBody(f: Fonts): (r: seq<string>)
    ensures NoEmptyLine(r) && |r| >= 1
  {
    OrPlaceholder(FontLines(f), NO_FONTS)
  }

  /** `(cl ? getTechLabel("componentLibrary", cl) : null) || "_None selected._"` */
  function LibraryLine(cl: string): (r: string)
    ensures r != ""
    ensures cl == "" ==> r == NO_LIBRARY
  {
    OrElse(if cl != "" then GetTechLabel("componentLibrary", cl) else "", NO_LIBRARY)
  }

  /** A listed component library is shown by its label. */
  lemma LibraryLineListed(oi: nat)
    requires oi < |COMPONENT_LIBRARY_OPTIONS|
    ensures LibraryLine(COMPONENT_LIBRARY_OPTIONS[oi].id) == COMPONENT_LIBRARY_OPTIONS[oi].caption
  {
    var o := COMPONENT_LIBRARY_OPTIONS[oi];
    ComponentLibraryLabel(oi);
    assert o.id != "" && o.caption != "" by {
      LibraryOptionsNamed();
    }
  }

  lemma ComponentLibraryLabel(oi: nat)
    requires oi < |COMPONENT_LIBRARY_OPTIONS|
    ensures GetTechLabel("componentLibrary", COMPONENT_LIBRARY_OPTIONS[oi].id) == COMPONENT_LIBRARY_OPTIONS[oi].caption
  {
    CategoryIdsUnique();
    assert ALL_TECH_CATEGORIES[5].options == COMPONENT_LIBRARY_OPTIONS;
    LabelOfListedOption(5, oi);
  }

  lemma LibraryOptionsNamed()
    ensures forall i | 0 <= i < |COMPONENT_LIBRARY_OPTIONS| ::
      COMPONENT_LIBRARY_OPTIONS[i].id != "" && COMPONENT_LIBRARY_OPTIONS[i].caption != ""
  {
  }

  /** The optional notes block: a heading and the trimmed notes, only when
      the notes are not blank. */
  function NotesBlock(notes: string): (r: seq<string>)
    ensures IsBlank(notes) <==> r == []
    ensures !IsBlank(notes) ==> |r| == 4 && r[0] == NOTES_HEADING && r[2] == Trim(notes) && r[1] == r[3] == ""
  {
    var t := Trim(notes);
    if t != "" then [NOTES_HEADING, "", t, ""] else []
  }

  /** Where each part of the document sits. */
  predicate StylingFrame(r: seq<string>, title: string, colors: seq<string>, fonts: seq<string>,
                         library: string, notes: seq<string>) {
    var c, f := |colors|, |fonts|;
    && |r| == 19 + c + f + |notes|
    && r[..6] == [title, "", "---", "", "## Brand Colors", ""]
    && BodyAt(r, 6, colors)
    && r[7 + c] == "## Typography" && BodyAt(r, 9 + c, fonts)
    && r[10 + c + f] == "## Component Library" && r[12 + c + f] == library
    && r[14 + c + f..14 + c + f + |notes|] == notes
    && r[|r| - 5..] == STYLING_TAIL
  }

  /** The document around its four variable parts. */
  function StylingDoc(title: string, colors: seq<string>, fonts: seq<string>, library: string,
                      notes: seq<string>): (r: seq<string>)
    requires NoEmptyLine(colors) && NoEmptyLine(fonts)
    ensures StylingFrame(r, title, colors, fonts, library, notes)
  {
    var head := [title, "", "---", "", "## Brand Colors", ""];
    var mid := ["", "## Typography", ""];
    var lib := ["", "## Component Library", "", library, ""];
    var r := head + colors + mid + fonts + lib + notes + STYLING_TAIL;
    var c, f := |colors|, |fonts|;
    assert r[6..6 + c] == colors;
    assert r[9 + c..9 + c + f] == fonts;
    assert r[14 + c + f..14 + c + f + |notes|] == notes;
    r
  }

  /** `generateStylingMd`: the Brand Colors section holds one row per color
      that has a hex value, in stored order (or the placeholder); the
      Typography section the set fonts (or the placeholder); the notes block
      appears only for notes that are not blank. */
  function StylingLines(s: ProjectState): (r: seq<string>)
    ensures StylingFrame(r, "# Styling Guide — " + OrElse(s.identity.name, "Project"),
                         ColorsBody(s.styling.colors), FontsBody(s.styling.fonts),
                         LibraryLine(s.styling.componentLibrary), NotesBlock(s.styling.additionalNotes))
  {
    StylingDoc("# Styling Guide — " + OrElse(s.identity.name, "Project"),
               ColorsBody(s.styling.colors), FontsBody(s.styling.fonts),
               LibraryLine(s.styling.componentLibrary), NotesBlock(s.styling.additionalNotes))
  }

  function StylingText(s: ProjectState): string {
    Join(StylingLines(s), "\n")
  }

  /** Every color with a hex value has its row in the table, after the
      table's two head lines; with `StylingLines` and `BodyAtReads`, a
      reader of the Brand Colors section finds it there. */
  lemma ColorHasRow(cs: seq<BrandColor>, c: BrandColor)
    requires c in cs && c.hex != ""
    ensures |ColorsBody(cs)| >= 3 && ColorRow(c) in ColorsBody(cs)[2..]
  {
    WithHexKeeps(cs, c);
    var kept := WithHex(cs);
    var i :| 0 <= i < |kept| && kept[i] == c;
    assert ColorsBody(cs)[2..][i] == ColorRow(c);
  }

  /** In a new project the five default colors all have a hex value, so the
      table starts out with five rows. */
  lemma DefaultColorsAllShown(now: string, projectId: string, ids: ColorIds)
    ensures |ColorRows(DefaultState(now, projectId, ids).styling.colors)| == 5
  {
    var cs := DefaultState(now, projectId, ids).styling.colors;
    assert forall i | 0 <= i < 5 :: cs[i].hex != "";
    AllHexKept(cs);
  }

  /** When every color has a hex value, none is dropped. */
  lemma {:induction false} AllHexKept(cs: seq<BrandColor>)
    requires forall i | 0 <= i < |cs| :: cs[i].hex != ""
    ensures WithHex(cs) == cs
  {
    if cs != [] {
      AllHexKept(cs[1..]);
    }
  }
}
