/** `docs/ARCHITECTURE.md` (markdown/generate-architecture.ts): the
    application type, one bullet per chosen technology and one block per
    enabled layer. */
module ArchitectureMd {
  import opened Wrappers
  import opened Text
  import opened Lines
  import opened Project
  import opened TechStacks

  const NO_LAYERS := "_No layers defined._"
  const NOT_SPECIFIED := "_Not specified_"
  const LAYERS_HEAD := ["", "## Architecture Layers", ""]
  const ARCH_TAIL := ["---", "", PROJECT_FOOTER, ""]

  /** `APP_TYPES.find((t) => t.id === id)` */
  function FindAppType(types: seq<AppType>, id: string): (r: Option<AppType>)
    ensures r.Some? ==> r.value in types && r.value.id == id
    ensures r.None? <==> forall i | 0 <= i < |types| :: types[i].id != id
  {
    if types == [] then None
    else if types[0].id == id then Some(types[0])
    else FindAppType(types[1..], id)
  }

  /** `(APP_TYPES.find(...)?.label ?? appType) || "_Not specified_"` */
  function AppTypeLine(appType: string): (r: string)
    ensures r != ""
  {
    match FindAppType(APP_TYPES, appType)
    case Some(t) => OrElse(t.caption, NOT_SPECIFIED)
    case None => OrElse(appType, NOT_SPECIFIED)
  }

  /** The first entry with the id is the one found. */
  lemma {:induction false} FindAppTypeFirst(types: seq<AppType>, id: string, i: nat)
    requires i < |types| && types[i].id == id
    requires forall j | 0 <= j < i :: types[j].id != id
    ensures FindAppType(types, id) == Some(types[i])
  {
    if i > 0 {
      assert types[0].id != id;
      FindAppTypeFirst(types[1..], id, i - 1);
    }
  }

  /** No two application types share an id. */
  lemma AppTypeIdsDistinct()
    ensures forall i, j | 0 <= i < j < |APP_TYPES| :: APP_TYPES[i].id != APP_TYPES[j].id
  {
  }

  /** A listed application type shows its label. */
  lemma AppTypeLineKnown(i: nat)
    requires i < |APP_TYPES|
    ensures AppTypeLine(APP_TYPES[i].id) == APP_TYPES[i].caption
  {
    AppTypeIdsDistinct();
    FindAppTypeFirst(APP_TYPES, APP_TYPES[i].id, i);
  }

  /** An unlisted application type shows its raw id, and an empty one the
      placeholder. */
  lemma AppTypeLineUnknown(appType: string)
    requires forall i | 0 <= i < |APP_TYPES| :: APP_TYPES[i].id != appType
    ensures appType != "" ==> AppTypeLine(appType) == appType
    ensures appType == "" ==> AppTypeLine(appType) == NOT_SPECIFIED
  {
  }

  /** `layers.filter((l) => l.enabled)` */
  function EnabledLayers(ls: seq<Layer>): (r: seq<Layer>)
    ensures |r| <= |ls|
    ensures forall i | 0 <= i < |r| :: r[i] in ls && r[i].enabled
  {
    if ls == [] then []
    else if ls[0].enabled then [ls[0]] + EnabledLayers(ls[1..])
    else EnabledLayers(ls[1..])
  }

  /** Every enabled layer is kept. */
  lemma {:induction false} EnabledLayersKeeps(ls: seq<Layer>, l: Layer)
    requires l in ls && l.enabled
    ensures l in EnabledLayers(ls)
  {
    if ls[0] != l {
      EnabledLayersKeeps(ls[1..], l);
    }
  }

  /** The filter keeps the stored order: it distributes over concatenation. */
  lemma {:induction false} EnabledLayersAppend(a: seq<Layer>, b: seq<Layer>)
    ensures EnabledLayers(a + b) == EnabledLayers(a) + EnabledLayers(b)
  {
    if a == [] {
      assert a + b == b;
    } else {
      var ab := a + b;
      assert ab[0] == a[0] && ab[1..] == a[1..] + b;
      EnabledLayersAppend(a[1..], b);
    }
  }

  /** The lines of one layer block before they are joined: the heading, the
      technologies when there are any and the notes when they are not
      empty, each after an empty line. */
  function LayerParts(l: Layer): (r: seq<string>)
    ensures |r| == 1 + (if |l.technologies| > 0 then 2 else 0) + (if l.notes != "" then 2 else 0)
    ensures r[0] == "### " + l.name
    ensures |l.technologies| > 0 ==> r[1] == "" && r[2] == "**Technologies:** " + Join(l.technologies, ", ")
    ensures l.notes != "" ==> r[|r| - 2] == "" && r[|r| - 1] == l.notes
  {
    ["### " + l.name]
    + (if |l.technologies| > 0 then ["", "**Technologies:** " + Join(l.technologies, ", ")] else [])
    + (if l.notes != "" then ["", l.notes] else [])
  }

  /** `parts.join("\n")`: every layer block opens with its heading. */
  function LayerSection(l: Layer): (r: string)
    ensures StartsWith(r, "### " + l.name) && r[0] == '#'
  {
    var parts := LayerParts(l);
    JoinStartsWithFirst(parts, "\n");
    Join(parts, "\n")
  }

  function LayerSections(ls: seq<Layer>): (r: seq<string>)
    ensures |r| == |ls|
    ensures forall i | 0 <= i < |ls| :: r[i] == LayerSection(ls[i])
  {
    seq(|ls|, i requires 0 <= i < |ls| => LayerSection(ls[i]))
  }

  /** A tech-stack field: its caption in the document and its category in
      the option tables. */
  datatype TechField = TechField(caption: string, categoryId: string)

  /** The six fields the overview lists, in order. */
  function Field(i: nat): TechField
    requires i < 6
  {
    match i
    case 0 => TechField("Framework", "framework")
    case 1 => TechField("Styling", "styling")
    case 2 => TechField("Database", "database")
    case 3 => TechField("Auth", "auth")
    case 4 => TechField("Deployment", "deployment")
    case 5 => TechField("Components", "componentLibrary")
  }

  function FieldValue(ts: TechStack, i: nat): string
    requires i < 6
  {
    match i
    case 0 => ts.framework
    case 1 => ts.styling
    case 2 => ts.database
    case 3 => ts.auth
    case 4 => ts.deployment
    case 5 => ts.componentLibrary
  }

  /** `value && "- **Caption:** " + lookup(category, value)`, kept by
      `.filter(Boolean)` only when the value is not empty. The label lookup
      is a parameter so that the layout facts below hold for any lookup;
      the document passes `GetTechLabel`. */
  function TechBullet(caption: string, categoryId: string, value: string,
                      lookup: (string, string) -> string): (r: seq<string>)
    ensures value == "" <==> r == []
    ensures |r| <= 1
  {
    if value == "" then [] else ["- **" + caption + ":** " + lookup(categoryId, value)]
  }

  /** The Tech Stack Overview bullets, written out field by field. */
  function TechBulletsBy(ts: TechStack, lookup: (string, string) -> string): (r: seq<string>)
    ensures |r| <= 6
  {
    TechBullet("Framework", "framework", ts.framework, lookup)
    + (TechBullet("Styling", "styling", ts.styling, lookup)
    + (TechBullet("Database", "database", ts.database, lookup)
    + (TechBullet("Auth", "auth", ts.auth, lookup)
    + (TechBullet("Deployment", "deployment", ts.deployment, lookup)
    + TechBullet("Components", "componentLibrary", ts.componentLibrary, lookup)))))
  }

  function TechBullets(ts: TechStack): seq<string> {
    TechBulletsBy(ts, GetTechLabel)
  }

  /** Reference: one bullet per non-empty field from position `i` of the
      field table on, in table order. */
  function TableBullets(ts: TechStack, i: nat, lookup: (string, string) -> string): (r: seq<string>)
    requires i <= 6
    decreases 6 - i
  {
    if i == 6 then []
    else TechBullet(Field(i).caption, Field(i).categoryId, FieldValue(ts, i), lookup)
         + TableBullets(ts, i + 1, lookup)
  }

  /** The overview lists exactly the non-empty fields, in the table's
      fixed order, each with the lookup the lookup gives it. */
  lemma TechBulletsFollowTable(ts: TechStack, lookup: (string, string) -> string)
    ensures TechBulletsBy(ts, lookup) == TableBullets(ts, 0, lookup)
  {
    var t5 := TableBullets(ts, 5, lookup);
    assert t5 == TechBullet("Components", "componentLibrary", ts.componentLibrary, lookup);
    var t4 := TableBullets(ts, 4, lookup);
    assert t4 == TechBullet("Deployment", "deployment", ts.deployment, lookup) + t5;
    var t3 := TableBullets(ts, 3, lookup);
    assert t3 == TechBullet("Auth", "auth", ts.auth, lookup) + t4;
    var t2 := TableBullets(ts, 2, lookup);
    assert t2 == TechBullet("Database", "database", ts.database, lookup) + t3;
    var t1 := TableBullets(ts, 1, lookup);
    assert t1 == TechBullet("Styling", "styling", ts.styling, lookup) + t2;
  }

  /** With nothing chosen, the overview is empty; otherwise it is not. */
  lemma NoBulletsIffEmptyStack(ts: TechStack, lookup: (string, string) -> string)
    ensures TechBulletsBy(ts, lookup) == [] <==>
      ts.framework == "" && ts.styling == "" && ts.database == "" && ts.auth == ""
      && ts.deployment == "" && ts.componentLibrary == ""
  {
  }

  /** `sections.flatMap((s) => [s, ""])` */
  function Paired(ss: seq<string>): (r: seq<string>)
    ensures |r| == 2 * |ss|
    ensures forall i | 0 <= i < |ss| :: r[2 * i] == ss[i] && r[2 * i + 1] == ""
  {
    seq(2 * |ss|, i requires 0 <= i < 2 * |ss| => if i % 2 == 0 then ss[i / 2] else "")
  }

  /** The frame of the document: the title, the application type, the
      bullets from line 10 on, then the layer blocks (or the placeholder)
      and the tail. */
  predicate ArchFrame(r: seq<string>, title: string, app: string, bullets: seq<string>, n: nat) {
    var k := 13 + |bullets|;
    && |r| == k + (if n > 0 then 2 * n else 2) + 4
    && r[..10] == [title, "", "---", "", "## Application Type", "", app, "", "## Tech Stack Overview", ""]
    && r[10..k - 3] == bullets
    && r[k - 3..k] == LAYERS_HEAD
    && (r[k] == NO_LAYERS <==> n == 0)
    && r[|r| - 4..] == ARCH_TAIL
  }

  /** Where each part lands when the document is put together. */
  lemma ArchLayout(head: seq<string>, bullets: seq<string>, body: seq<string>)
    requires |head| == 10
    ensures var r, k := head + bullets + LAYERS_HEAD + body + ARCH_TAIL, 13 + |bullets|;
      && |r| == k + |body| + 4
      && r[..10] == head
      && r[10..k - 3] == bullets
      && r[k - 3..k] == LAYERS_HEAD
      && (forall i | 0 <= i < |body| :: r[k + i] == body[i])
      && r[|r| - 4..] == ARCH_TAIL
  {
    var upper := head + bullets + LAYERS_HEAD;
    var r, k := upper + body + ARCH_TAIL, 13 + |bullets|;
    assert r[..k] == upper;
    assert r[..10] == upper[..10] == head;
    assert r[10..k - 3] == upper[10..k - 3] == bullets;
    assert r[k - 3..k] == upper[k - 3..k] == LAYERS_HEAD;
  }

  /** The document around its three variable parts. */
  function ArchDoc(title: string, app: string, bullets: seq<string>, sections: seq<string>): (r: seq<string>)
    requires forall i | 0 <= i < |sections| :: |sections[i]| > 0 && sections[i][0] == '#'
    ensures ArchFrame(r, title, app, bullets, |sections|)
    ensures forall i | 0 <= i < |sections| :: r[13 + |bullets| + 2 * i] == sections[i]
  {
    var head := [title, "", "---", "", "## Application Type", "", app, "", "## Tech Stack Overview", ""];
    var body := if |sections| > 0 then Paired(sections) else [NO_LAYERS, ""];
    ArchLayout(head, bullets, body);
    assert |sections| > 0 ==> body[0] == sections[0] && sections[0][0] == '#' != NO_LAYERS[0];
    var r := head + bullets + LAYERS_HEAD + body + ARCH_TAIL;
    r
  }

  /** `generateArchitectureMd`: exactly the enabled layers, in stored order,
      one block each, or the placeholder when none is enabled; the overview
      bullets sit between the fixed headings. */
  function ArchitectureLines(s: ProjectState): (r: seq<string>)
    ensures ArchFrame(r, "# Architecture — " + OrElse(s.identity.name, "Project"),
                      AppTypeLine(s.architecture.appType), TechBullets(s.identity.techStack),
                      |EnabledLayers(s.architecture.layers)|)
    ensures var en := EnabledLayers(s.architecture.layers);
      var k := 13 + |TechBullets(s.identity.techStack)|;
      forall i | 0 <= i < |en| :: r[k + 2 * i] == LayerSection(en[i])
  {
    ArchDoc("# Architecture — " + OrElse(s.identity.name, "Project"),
            AppTypeLine(s.architecture.appType), TechBullets(s.identity.techStack),
            LayerSections(EnabledLayers(s.architecture.layers)))
  }

  function ArchitectureText(s: ProjectState): string {
    Join(ArchitectureLines(s), "\n")
  }

  /** No layer survives the filter exactly when none is enabled, so (by
      `ArchitectureLines`) the placeholder appears exactly then. */
  lemma NoneEnabled(ls: seq<Layer>)
    ensures EnabledLayers(ls) == [] <==> forall l | l in ls :: !l.enabled
  {
    if l :| l in ls && l.enabled {
      EnabledLayersKeeps(ls, l);
    }
  }
}
