/** The names of the files `generateAll` emits (markdown/index.ts), and the
    facts about them that the file list relies on: none holds a `/`, so each
    is the last segment of its path. */
module OutputNames {
  const PRIME := "PRIME.md"
  const PROJECT := "PROJECT.md"
  const QUICKREF := "CONVENTIONS-QUICKREF.md"
  const CONVENTIONS := "CONVENTIONS.md"
  const ARCHITECTURE := "ARCHITECTURE.md"
  const STYLING := "STYLING.md"
  const SCHEMA := "SCHEMA.md"
  const FEATURES_INDEX := "FEATURES-INDEX.md"
  const TASKS_MASTER := "TASKS-MASTER.md"
  const CONTEXT_STARTERS := "CONTEXT-WINDOW-" + "STARTERS.md"
  const CLAUDE := "CLAUDE.md"
  const CURSOR_RULES := ".cursorrules"
  const COPILOT := "copilot-" + "instructions.md"

  /** `dir/name` */
  function In(dir: string, name: string): string {
    dir + "/" + name
  }

  /** No fixed file name holds a `/`. */
  lemma FixedNamesFlat()
    ensures '/' !in PRIME && '/' !in PROJECT && '/' !in QUICKREF && '/' !in CONVENTIONS
    ensures '/' !in ARCHITECTURE && '/' !in STYLING && '/' !in SCHEMA
    ensures '/' !in FEATURES_INDEX && '/' !in TASKS_MASTER
    ensures '/' !in CONTEXT_STARTERS && '/' !in CLAUDE && '/' !in CURSOR_RULES && '/' !in COPILOT
  {
    HeadNamesFlat();
    OtherNamesFlat();
  }

  lemma HeadNamesFlat()
    ensures '/' !in PRIME && '/' !in PROJECT && '/' !in QUICKREF && '/' !in CONVENTIONS
    ensures '/' !in ARCHITECTURE && '/' !in STYLING && '/' !in SCHEMA
  {
    Flat(PRIME);
    Flat(PROJECT);
    Flat(QUICKREF);
    Flat(CONVENTIONS);
    Flat(ARCHITECTURE);
    Flat(STYLING);
    Flat(SCHEMA);
  }

  lemma OtherNamesFlat()
    ensures '/' !in FEATURES_INDEX && '/' !in TASKS_MASTER
    ensures '/' !in CONTEXT_STARTERS && '/' !in CLAUDE && '/' !in CURSOR_RULES && '/' !in COPILOT
  {
    Flat(FEATURES_INDEX);
    Flat(TASKS_MASTER);
    Flat(CONTEXT_STARTERS);
    Flat(CLAUDE);
    Flat(CURSOR_RULES);
    Flat(COPILOT);
  }

  /** Names made of letters, digits, `-`, `_` and `.` hold no `/`. */
  lemma Flat(name: string)
    requires forall i | 0 <= i < |name| :: NameChar(name[i])
    ensures '/' !in name
  {
  }

  predicate NameChar(c: char) {
    'A' <= c <= 'Z' || 'a' <= c <= 'z' || c == '-' || c == '.'
  }
}
