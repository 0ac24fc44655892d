/** `docs/SCHEMA.md` (markdown/generate-schema.ts): a placeholder when the
    database step was skipped; otherwise the description or pasted SQL of
    the chosen approach, the imported schema and one block per table. */
module SchemaMd {
  import opened Text
  import opened Lines
  import opened Project
  import Slices

  const SKIPPED := "_Database schema has " + "been skipped. Define " + "it later when ready._"
  const SCHEMA_TAIL := ["---", "", PROJECT_FOOTER, ""]
  const FENCE_OPEN := "```sql"
  const FENCE_CLOSE := "```"

  function Title(name: string): string {
    "# Database Schema — " + OrElse(name, "Project")
  }

  /** The Description section, only for the plain-english approach with a
      description that is not blank. */
  function DescriptionBlock(db: Database): (r: seq<string>)
    ensures r != [] <==> db.approach == PlainEnglish && !IsBlank(db.plainEnglishDescription)
    ensures r != [] ==> r == ["## Description", "", Trim(db.plainEnglishDescription), "", ""]
  {
    if db.approach == PlainEnglish && Trim(db.plainEnglishDescription) != "" then
      ["## Description", "", Trim(db.plainEnglishDescription), "", ""]
    else []
  }

  /** A fenced SQL block under a heading, holding the trimmed text. */
  function Fenced(heading: string, sql: string): (r: seq<string>)
    ensures |r| == 6 && r[0] == heading && r[2] == FENCE_OPEN && r[3] == Trim(sql) && r[4] == FENCE_CLOSE
  {
    [heading, "", FENCE_OPEN, Trim(sql), FENCE_CLOSE, ""]
  }

  /** The SQL Schema section, only for the paste-sql approach with a schema
      that is not blank. */
  function SqlBlock(db: Database): (r: seq<string>)
    ensures r != [] <==> db.approach == PasteSql && !IsBlank(db.pastedSchema)
    ensures r != [] ==> r == Fenced("## SQL Schema", db.pastedSchema)
  {
    if db.approach == PasteSql && Trim(db.pastedSchema) != "" then Fenced("## SQL Schema", db.pastedSchema) else []
  }

  /** The imported schema of an existing project, whatever the approach. */
  function ExistingBlock(existing: string): (r: seq<string>)
    ensures r != [] <==> !IsBlank(existing)
    ensures r != [] ==> r == Fenced("## Existing Schema (Imported)", existing)
  {
    if Trim(existing) != "" then Fenced("## Existing Schema (Imported)", existing) else []
  }

  /** One table: its heading, then the description and the columns when
      they are not empty, each block closed by an empty line. */
  function TableBlock(t: Table): (r: seq<string>)
    ensures |r| == 2 + (if t.description != "" then 2 else 0) + (if t.columns != "" then 4 else 0)
    ensures r[0] == "### " + OrElse(t.name, "Unnamed Table") && r[1] == ""
    ensures t.description != "" ==> r[2] == t.description
    ensures t.columns != "" ==> r[|r| - 4] == "**Columns:**" && r[|r| - 2] == t.columns
    ensures r[|r| - 1] == ""
  {
    ["### " + OrElse(t.name, "Unnamed Table"), ""]
    + (if t.description != "" then [t.description, ""] else [])
    + (if t.columns != "" then ["**Columns:**", "", t.columns, ""] else [])
  }

  /** The table blocks one after another, in stored order. */
  function TableBlocks(ts: seq<Table>): (r: seq<string>)
    ensures |r| >= 2 * |ts|
  {
    if ts == [] then [] else TableBlock(ts[0]) + TableBlocks(ts[1..])
  }

  /** The blocks of two lists of tables are the blocks of each, in turn. */
  lemma {:induction false} TableBlocksAppend(a: seq<Table>, b: seq<Table>)
    ensures TableBlocks(a + b) == TableBlocks(a) + TableBlocks(b)
  {
    if a == [] {
      assert a + b == b;
    } else {
      var ab := a + b;
      assert ab[0] == a[0] && ab[1..] == a[1..] + b;
      TableBlocksAppend(a[1..], b);
    }
  }

  /** The block of table `i` starts right after the blocks of the tables
      before it, with that table's heading. */
  lemma TableHeadingAt(ts: seq<Table>, i: nat)
    requires i < |ts|
    ensures var k := |TableBlocks(ts[..i])|;
      k < |TableBlocks(ts)| && TableBlocks(ts)[k] == "### " + OrElse(ts[i].name, "Unnamed Table")
  {
    assert ts == ts[..i] + ts[i..];
    TableBlocksAppend(ts[..i], ts[i..]);
    assert ts[i..][0] == ts[i];
  }

  /** The Tables section, only when there are tables. */
  function TablesSection(ts: seq<Table>): (r: seq<string>)
    ensures r == [] <==> ts == []
    ensures ts != [] ==> |r| >= 2 && r[..2] == ["## Tables", ""] && r[2..] == TableBlocks(ts)
  {
    if ts == [] then [] else ["## Tables", ""] + TableBlocks(ts)
  }

  /** Everything between the rule under the title and the closing rule. */
  function SchemaBody(db: Database, existing: string): seq<string> {
    DescriptionBlock(db) + (SqlBlock(db) + (ExistingBlock(existing) + TablesSection(db.tables)))
  }

  /** `generateSchemaMd`: the skipped approach yields the title and the
      placeholder only, with no footer; every other approach yields the
      title, the body sections and the footer. */
  function SchemaLines(db: Database, identity: Identity): (r: seq<string>)
    ensures db.approach == Skip ==> r == [Title(identity.name), "", SKIPPED, ""]
    ensures db.approach != Skip ==>
      && |r| == 8 + |SchemaBody(db, identity.existingSchema)|
      && r[..4] == [Title(identity.name), "", "---", ""]
      && r[4..|r| - 4] == SchemaBody(db, identity.existingSchema)
      && r[|r| - 4..] == SCHEMA_TAIL
  {
    if db.approach == Skip then [Title(identity.name), "", SKIPPED, ""]
    else
      var body := SchemaBody(db, identity.existingSchema);
      var r := [Title(identity.name), "", "---", ""] + body + SCHEMA_TAIL;
      assert r[4..|r| - 4] == body;
      r
  }

  function SchemaText(s: ProjectState): string {
    Join(SchemaLines(s.database, s.identity), "\n")
  }

  /** The description and the pasted SQL never both appear: which one shows
      is decided by the approach. */
  lemma DescriptionOrSql(db: Database)
    ensures DescriptionBlock(db) == [] || SqlBlock(db) == []
  {
  }

  /** With pasted SQL, the body opens with the SQL block, which holds the
      trimmed schema between the fences. */
  lemma PastedSqlFirst(db: Database, identity: Identity)
    requires db.approach == PasteSql && !IsBlank(db.pastedSchema)
    ensures var r := SchemaLines(db, identity);
      |r| >= 14 && r[4] == "## SQL Schema" && r[6] == FENCE_OPEN && r[7] == Trim(db.pastedSchema) && r[8] == FENCE_CLOSE
  {
    var q := SqlBlock(db);
    SqlOpensBody(db, identity.existingSchema);
    OpeningLines(SchemaLines(db, identity), SchemaBody(db, identity.existingSchema), q);
    assert q[0] == "## SQL Schema" && q[2] == FENCE_OPEN && q[3] == Trim(db.pastedSchema) && q[4] == FENCE_CLOSE;
  }

  /** The SQL block is the first thing in the body when SQL was pasted. */
  lemma SqlOpensBody(db: Database, existing: string)
    requires db.approach == PasteSql && !IsBlank(db.pastedSchema)
    ensures |SqlBlock(db)| == 6
    ensures |SchemaBody(db, existing)| >= 6 && SchemaBody(db, existing)[..6] == SqlBlock(db)
  {
    var q, rest := SqlBlock(db), ExistingBlock(existing) + TablesSection(db.tables);
    var d := DescriptionBlock(db);
    assert d == [];
    assert SchemaBody(db, existing) == d + (q + rest) == q + rest;
    assert (q + rest)[..|q|] == q;
  }

  /** With a plain-english description, the body opens with it. */
  lemma DescriptionFirst(db: Database, identity: Identity)
    requires db.approach == PlainEnglish && !IsBlank(db.plainEnglishDescription)
    ensures var r := SchemaLines(db, identity);
      |r| >= 13 && r[4] == "## Description" && r[6] == Trim(db.plainEnglishDescription)
  {
    var d := DescriptionBlock(db);
    DescriptionOpensBody(db, identity.existingSchema);
    OpeningLines(SchemaLines(db, identity), SchemaBody(db, identity.existingSchema), d);
    assert d[0] == "## Description" && d[2] == Trim(db.plainEnglishDescription);
  }

  /** A document that wraps a body in four lines on each side shows the
      first five lines of the body from line 4 on (the second one, always
      empty, is not needed). */
  lemma OpeningLines(r: seq<string>, body: seq<string>, d: seq<string>)
    requires |r| == 8 + |body| && r[4..|r| - 4] == body
    requires 5 <= |d| <= |body| && body[..|d|] == d
    ensures r[4] == d[0] && r[6] == d[2] && r[7] == d[3] && r[8] == d[4]
  {
    var inner := r[4..|r| - 4];
    assert r[4] == inner[0] == body[..|d|][0];
    assert r[6] == inner[2] == body[..|d|][2];
    assert r[7] == inner[3] == body[..|d|][3];
    assert r[8] == inner[4] == body[..|d|][4];
  }

  /** The description block is the first thing in the body. */
  lemma DescriptionOpensBody(db: Database, existing: string)
    requires db.approach == PlainEnglish && !IsBlank(db.plainEnglishDescription)
    ensures |DescriptionBlock(db)| == 5
    ensures |SchemaBody(db, existing)| >= 5 && SchemaBody(db, existing)[..5] == DescriptionBlock(db)
  {
    var d, rest := DescriptionBlock(db), SqlBlock(db) + (ExistingBlock(existing) + TablesSection(db.tables));
    assert (d + rest)[..|d|] == d;
  }

  /** With nothing to say, a non-skipped schema is just the title and the
      footer. */
  lemma EmptySchema(db: Database, identity: Identity)
    requires db.approach != Skip && db.tables == [] && IsBlank(identity.existingSchema)
    requires db.approach == PlainEnglish ==> IsBlank(db.plainEnglishDescription)
    requires db.approach == PasteSql ==> IsBlank(db.pastedSchema)
    ensures SchemaLines(db, identity) == [Title(identity.name), "", "---", ""] + SCHEMA_TAIL
  {
    assert SchemaBody(db, identity.existingSchema) == [];
  }

  /** The placeholder stands in the third line exactly when the database
      step was skipped. */
  lemma SkippedIff(db: Database, identity: Identity)
    ensures var r := SchemaLines(db, identity);
      |r| >= 4 && (r[2] == SKIPPED <==> db.approach == Skip)
  {
  }
}
