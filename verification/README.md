# Framewright planning wizard — a Dafny model

Framewright is a wizard that walks a user through planning a software project. The steps are identity and tech stack, architecture, styling, conventions, database, features, tasks, review and deployment. From the resulting project state it generates a set of markdown files that an AI coding assistant reads. This project models the deterministic core of that program as pure Dafny functions over immutable datatypes, and proves what the code promises about them.

What is modelled, by module:

- **Project** (`project.dfy`): the project state and its parts. Includes `createDefaultProjectState`.
- **Reducer** (`reducer.dfy`): the `projectReducer` transition function and its actions.
  - Lemmas state what each action writes and that every other slice stays unchanged.
  - Further lemmas cover how SET_STEP moves the step counters.
  - Patch merges are proved to compose.
- **Wizard** (`wizard.dfy`):
  - the step table;
  - the Next/Back/Skip rules, including the skip over the database step;
  - the progress bar's applicable steps, its four-slot window and its click and arrow guards;
  - the shell's effective step, wide layout and export banner.
- **StepEdits, ConventionsStep, Review** (`step_edits.dfy`, `conventions_step.dfy`, `review.dfy`): the edits the wizard screens compute before dispatching.
  - Edits cover task numbering, drag reordering, toggles, row edits, the slug rules, and table, layer, color and font edits.
  - The conventions screen: choosing an answer, applying the recommended defaults, and grouping by category.
  - The review screen: its warnings, word-count badges, banner and saved edits.
- **Chat** (`chat.dfy`): the assistant's tool executor and the batch loop, which numbers tasks with per-tool offsets.
- **Document generation**:
  - `generate_all.dfy`:
    - `Assembler`: the file list, with its order, paths, file names, categories, overrides and word counts, and the cross-file links.
    - `Generator`: wires the renderers into it.
  - The per-document renderers: `FeaturesMd`, `TasksMd`, `ConventionsMd`, `ArchitectureMd`, `StylingMd` and `SchemaMd`, with `CrossLinks` for the links between feature and task files.
  - `Words`: the `wordCount` tokenizer.
  - `DocPaths`: task numbers and document paths.
  - `Slug`: the three slug rules.
- **Catalogs**:
  - `ConventionCatalog`: the merge and dedup of convention questions.
  - `FastapiConventions`: the FastAPI questions, as data.
  - `TechStacks`: the option tables and `getTechLabel`.
  - `SmartDefaults`: the default layers per framework.
- **Prompts** (`prompts.dfy`): the prompt builders.
- **FileTree** (`file_tree.dfy`): the export's insertion-ordered tree, and the example viewer's sorted tree.
- **ExampleData** (`examples_data.dfy`): the bundled examples' file helper and task counts.
- **Helpers**: `Text`, `Lines`, `Slices`, `OutputNames` and `Wrappers` hold the string and sequence helpers the rest shares.

Ids (`crypto.randomUUID`) and timestamps (`new Date().toISOString()`) are parameters. Documents whose renderers are not part of this model are inputs to the assembler, already rendered. These are `PRIME.md`, `PROJECT.md`, the context-window starters and the three AI configuration files.

## Model

| member | source | states |
|---|---|---|
| Words.BlankSymbols | src/lib/markdown/index.ts:29 | each markdown symbol of the regex (hash, pipe, backtick, hyphen, star, angle bracket, underscore, square and round brackets) becomes a space and every other character is kept, position by position |
| Words.SplitWs | src/lib/markdown/index.ts:30 | splitting on white-space runs gives at least one piece, and no piece holds white space |
| Words.SplitCountsWordStarts | src/lib/markdown/index.ts:30-31 | after empty pieces are dropped, the pieces of a white-space split are exactly the word starts of the reference counter |
| Words.WordCountIsWordStarts | src/lib/markdown/index.ts:27-32 | `wordCount` equals the number of word starts once the markdown symbols are blanked |
| Words.CountZeroIffSeparators | src/lib/markdown/index.ts:30-31 | a string has no word start iff it is all white space |
| Words.WordCountZeroIff | src/lib/markdown/index.ts:27-32 | `wordCount` is 0 iff every character is white space or one of the markdown symbols, in both directions |
| Words.CountDeleteMonotone | src/lib/markdown/index.ts:30-31 | deleting one character never adds a word start, whatever the state before it |
| Words.WordCountDeleteMonotone | src/lib/markdown/index.ts:27-32 | deleting any one character never increases `wordCount` |
| Words.ExampleWordCount | src/data/examples.ts:25 | `content.split(/\s+/).length` is at least 1, even for empty content |
| Words.ExampleCountDiffersFromWordCount | src/data/examples.ts:25 | the example data's count and the generator's count disagree: "# A" and " A" give 2 pieces where `wordCount` gives 1 |
| DocPaths.FormatTaskNumber | src/lib/markdown/generate-tasks.ts:3-5 | the label is "task-" followed by digits that read back as the number (for n ≥ 0); it has exactly 8 characters for 0..999 and no `/` |
| DocPaths.FormatTaskNumberInjective | src/lib/markdown/generate-features.ts:3-5 | distinct non-negative task numbers get distinct labels |
| DocPaths.TaskSlug | src/lib/markdown/index.ts:34-43 | the slug opens with the task label; it is the label alone iff the name's slug is empty, and otherwise the label, "-" and that well-formed slug; it has no `/` |
| DocPaths.SlugPart | src/lib/markdown/generate-tasks.ts:7-12 | the renderers' `name ? slug : ""` slug equals the project slug rule, which is well formed and has no `/` |
| DocPaths.FeatureFile | src/lib/markdown/generate-features.ts:19 | the feature's file is "<slug>.md", or "unnamed.md" for an empty slug |
| DocPaths.TaskFile | src/lib/markdown/generate-tasks.ts:23 | the task's file is the task slug followed by ".md"; it opens with the label, which is followed by "-" or the "." of ".md" and never by a digit; it has no `/` |
| DocPaths.TaskFilesDistinct | src/lib/markdown/index.ts:171-184 | tasks with distinct non-negative numbers never share a file, so no task document overwrites another |
| Slug.ReplaceRunsShape | src/components/wizard/steps/step-project-identity.tsx:33 | after `replace(/P+/g, c)` every character is `c` or an input character outside P, and no two neighbours are both in P |
| Slug.HyphenateNonAlnum | src/components/wizard/steps/step-project-identity.tsx:33 | after `replace(/[^a-z0-9]+/g, "-")` only `[a-z0-9-]` remain and no "--" |
| Slug.ProjectSlugIsSlug | src/components/wizard/steps/step-project-identity.tsx:31-34 | the project slug uses only `[a-z0-9-]`, with no doubled hyphen and no hyphen at either edge |
| Slug.NameSlugIsProjectSlug | src/components/chat/chat-widget.tsx:155-158 | stripping at most one hyphen from each edge after hyphenation gives the same slug as stripping every edge hyphen, so chat, task files and identity share one slug rule |
| Slug.ProjectSlugFixesSlugs | src/components/wizard/steps/step-project-identity.tsx:31-34 | every well-formed slug is its own project slug |
| Slug.ProjectSlugIdempotent | src/components/wizard/steps/step-project-identity.tsx:31-34 | applying the project slug rule twice gives the same result as applying it once |
| Slug.FeatureSlugShape | src/components/wizard/steps/step-features.tsx:63-71 | the feature slug uses only `[a-z0-9-]` and never holds "--" |
| Slug.FeatureSlugKeepsEdgeHyphen | src/components/wizard/steps/step-features.tsx:63-71 | the feature rule keeps a leading hyphen (" a" gives "-a") where the project rule gives "a" |
| Slug.FeatureSlugDeletesPunctuation | src/components/wizard/steps/step-features.tsx:66 | the feature rule deletes punctuation ("a_b" gives "ab") where the project rule hyphenates it ("a-b") |
| ExampleData.ExampleFile | src/data/examples.ts:15-28 | the path is kept; the filename is the last `/` segment, or the path when that is empty; the content is the trimmed input plus exactly one "\n"; the word count is at least 1 and is taken on the raw content; the category defaults to root |
| ExampleData.ExampleFileName | src/data/examples.ts:20 | a file "dir/name" is named "name", and a top-level file keeps its path as its name |
| ExampleData.ExampleContentIdempotent | src/data/examples.ts:24 | feeding the produced content through `f` again leaves it unchanged |
| ExampleData.TaskDocs | src/data/examples.ts:2681 | the number of task documents is at most the number of files, and 0 iff no file is a task document |
| ExampleData.TaskDocsAppend | src/data/examples.ts:2681 | the task documents of two file lists add up |
| ExampleData.LayoutTaskDocs | src/data/examples.ts:720-1000 | in the bundled layout only the tasks folder holds task documents, one per task, with the master list excluded |
| ExampleData.LayoutConsistent | src/data/examples.ts:2681 | an example with that layout is consistent iff its `taskCount` equals its number of task files |
| ExampleData.ExamplesConsistent | src/data/examples.ts:2672-2716 | ClinicFlow (6), LaunchPad (5) and PulseAPI (5) each advertise exactly as many tasks as they ship task documents |
| Assembler.Emitted | src/lib/markdown/index.ts:45-231 | the list has 12 + number of features + number of tasks files, plus one when the database approach is not "skip" |
| Assembler.Finish | src/lib/markdown/index.ts:144-157 | a file takes the override for its path when the map has that key, even with an empty value, and the rendered document otherwise; its word count is that of the final content |
| Assembler.Assemble | src/lib/markdown/index.ts:45-231 | one entry per emitted file, in emission order, each finished against the state's override map |
| Assembler.HeadOrder | src/lib/markdown/index.ts:48-142 | the list opens with PRIME, PROJECT, QUICKREF, CONVENTIONS, ARCHITECTURE and STYLING; SCHEMA comes next iff the approach is not "skip"; the features index follows |
| Assembler.FeatureOrder | src/lib/markdown/index.ts:144-157 | the i-th feature of the state has the i-th feature file, right after the index |
| Assembler.TaskOrder | src/lib/markdown/index.ts:159-184 | the tasks master follows the feature files, and the j-th task has the j-th task file after it |
| Assembler.TailOrder | src/lib/markdown/index.ts:186-228 | the list ends with CONTEXT-WINDOW-STARTERS, CLAUDE.md, .cursorrules and the copilot instructions |
| Assembler.DefaultStateTwelve | src/types/project.ts:182-194 | the fresh default state yields exactly 12 files: no features, no tasks, and the database step starts out skipped |
| Assembler.CategoryFollowsPath | src/lib/markdown/index.ts:56-227 | the category written with each file is the one its path determines: root documents, `docs/`, `features/`, `tasks/`, and AI configurations for the rest |
| Assembler.CategoriesFollowPaths | src/lib/markdown/index.ts:45-231 | every entry of the list carries the category of its path |
| Assembler.NameIsLastSegment | src/lib/markdown/index.ts:144-184 | a file's name is the last `/` segment of its path, provided a feature slug holds no `/` |
| Assembler.FilenamesAreLastSegments | src/lib/markdown/index.ts:45-231 | every `filename` of the list is the last segment of its `path` when no feature slug holds `/` |
| Assembler.FeatureFileFromState | src/lib/markdown/index.ts:145 | every feature file of the list belongs to one of the state's features |
| Assembler.OverridesOnlyChangeContent | src/lib/markdown/index.ts:49-50 | with any other override map the list has the same length and every entry the same path, file name and category |
| Assembler.OverrideReplaces | src/lib/markdown/index.ts:148-149 | setting an override for a path replaces exactly that file's content (even with "") and its word count, and leaves every other entry unchanged |
| Assembler.NoOverridesRendered | src/lib/markdown/index.ts:172-176 | with no overrides every file holds its rendered document |
| Assembler.SameSlugSamePath | src/lib/markdown/index.ts:145-157 | paths are never deduplicated: two features with the same slug give two files with the same path |
| Assembler.TaskPathsDistinct | src/lib/markdown/index.ts:172-174 | tasks with distinct non-negative numbers get distinct paths |
| Assembler.TaskLinksResolve | src/lib/markdown/generate-features.ts:64-67 | a feature's "../tasks/<file>" link and the master row's "<file>" link both reach the path the task file is written to |
| Assembler.FeatureLinksResolve | src/lib/markdown/generate-tasks.ts:55-57 | a task's "../features/<file>" link and the index row's "<file>" link both reach the path the feature file is written to |
| Assembler.FooterLinksResolve | src/lib/markdown/generate-features.ts:102 | the footers' "FEATURES-INDEX.md", "TASKS-MASTER.md" and "../PROJECT.md" links reach emitted paths |
| Lines.KeepNonBlank | src/lib/markdown/generate-features.ts:54-56 | the rule filter keeps only non-blank entries, each taken from the input |
| Lines.KeepNonBlankKeeps | src/lib/markdown/generate-features.ts:58-60 | every non-blank criterion or rule survives the filter |
| Lines.KeepNonBlankAppend | src/lib/markdown/generate-features.ts:54-60 | the filter distributes over concatenation, so the kept entries stay in their original order |
| Lines.OrPlaceholder | src/lib/markdown/generate-features.ts:80-98 | a section shows its lines when there are any and exactly its italic placeholder otherwise |
| Lines.BodyAtReads | src/lib/markdown/generate-features.ts:69-104 | a reader that stops at the first empty line after a section heading gets exactly that section's body back |
| Lines.LastBodyReads | src/lib/markdown/generate-features.ts:94-99 | a reader that walks back from the footer to the last empty line gets exactly the last section's body back |
| Lines.IndexDoc | src/lib/markdown/generate-features.ts:22-41 | the index frame: title, blank line, summary line, rule, then the table as a closed section and a footer linking back |
| FeaturesMd.TasksOf | src/lib/markdown/generate-features.ts:50-52 | every related task is a task of the state that lists the feature's id |
| FeaturesMd.TasksOfKeeps | src/lib/markdown/generate-features.ts:50-52 | every task that lists the feature's id is related |
| FeaturesMd.IndexLines | src/lib/markdown/generate-features.ts:14-44 | the index has the title, the pluralised count, then one row per feature in state order after the header, or "_No features defined._" with no header, then the footer |
| FeaturesMd.FeatureLines | src/lib/markdown/generate-features.ts:46-107 | the feature document has its title and description, then the non-blank criteria, the non-blank rules, the related tables verbatim and the related task links, each as a readable section, or that section's placeholder |
| FeaturesMd.IndexCountMatchesFeatureDoc | src/lib/markdown/generate-features.ts:18 | the index's task count for a feature equals the number of entries in its Related Tasks section, which shows the placeholder exactly when that count is 0 |
| TasksMd.FeaturesOf | src/lib/markdown/generate-tasks.ts:18-19 | every linked feature is a feature of the state whose id the task lists |
| TasksMd.FeaturesOfKeeps | src/lib/markdown/generate-tasks.ts:51-53 | every feature whose id the task lists is linked, so dangling ids are ignored and existing ones are not |
| TasksMd.FeatureCell | src/lib/markdown/generate-tasks.ts:18-21 | the Feature(s) cell joins the linked names ("Unnamed" when blank) with ", ", or is "—" when none is linked |
| TasksMd.MasterLines | src/lib/markdown/generate-tasks.ts:14-48 | the master list has the title, the pluralised count, then one row per task in state order, or "_No tasks defined._", then the footer |
| TasksMd.TrimmedOr | src/lib/markdown/generate-tasks.ts:72 | the definition of done and the file boundaries are shown trimmed, or as "_Not specified._" when blank |
| TasksMd.TaskLines | src/lib/markdown/generate-tasks.ts:50-85 | the task document has the heading "# task-NNN: name" ("Unnamed Task" when blank), the related feature links or "_Not linked to any feature._", and the trimmed definition of done and file boundaries |
| TasksMd.TaskDocReadsBack | src/lib/markdown/generate-tasks.ts:64-69 | reading the Related Features section back yields one link per linked feature, in state order, or the placeholder |
| CrossLinks.LinkedBothWays | src/lib/markdown/generate-tasks.ts:51-53 | a task is under a feature's Related Tasks iff that feature is under the task's Related Features iff the task lists the feature's id |
| CrossLinks.UnlinkedTask | src/lib/markdown/generate-features.ts:50-52 | a task naming no existing feature shows the placeholder, and no feature document lists it |
| ConventionsMd.FindQuestion | src/lib/markdown/generate-conventions.ts:11-12 | the found question is in the catalog with the decision's id; nothing is found iff no question has that id |
| ConventionsMd.FindSelected | src/lib/markdown/generate-conventions.ts:13-16 | the found option is one of the question's options with the selected id; nothing is found iff the selection is null or names no option |
| ConventionsMd.Resolve | src/lib/markdown/generate-conventions.ts:65-81 | a decision is dropped iff its question is not in the catalog or its selection is not an option of it; otherwise it carries that question's category and text and that option's text and label |
| ConventionsMd.ResolveAllAppend | src/lib/markdown/generate-conventions.ts:82 | filtering the resolved decisions distributes over concatenation, so survivors keep decision order |
| ConventionsMd.ResolveAllSingle | src/lib/markdown/generate-conventions.ts:9-28 | a single decision survives exactly when it resolves |
| ConventionsMd.FirstLineOr | src/lib/markdown/generate-conventions.ts:17-21 | the line is the first non-blank line of the text, trimmed, or the option label when every line is blank |
| ConventionsMd.StripHeading | src/lib/markdown/generate-conventions.ts:23 | a leading run of `#` and the white space after it are removed; a line not opening with `#` is kept |
| ConventionsMd.RemoveBold | src/lib/markdown/generate-conventions.ts:24 | after removing every "**" no two adjacent asterisks remain |
| ConventionsMd.RemoveBoldKeeps | src/lib/markdown/generate-conventions.ts:24 | text without "**" is left unchanged |
| ConventionsMd.RemoveBoldIdempotent | src/lib/markdown/generate-conventions.ts:24 | removing "**" twice is the same as removing it once |
| ConventionsMd.Clean | src/lib/markdown/generate-conventions.ts:22-25 | the cleaned line holds no "**" and has no white space at either edge |
| ConventionsMd.CleanKeepsPlainLine | src/lib/markdown/generate-conventions.ts:22-25 | a trimmed line without heading marks or "**" is already clean |
| ConventionsMd.QuickRuleShape | src/lib/markdown/generate-conventions.ts:26 | a quick rule is "- **<category>:** " followed by the cleaned first line, which holds no "**" |
| ConventionsMd.StripBullet | src/lib/markdown/generate-conventions.ts:48 | one leading bullet mark (hyphen, bullet or star) and the white space after it are removed; other lines are kept |
| ConventionsMd.CustomLinesSpec | src/lib/markdown/generate-conventions.ts:43-48 | the Additional block holds the first five non-blank lines of the trimmed custom text, in order, each as "- " plus the line without its bullet mark, trimmed |
| ConventionsMd.QuickExtra | src/lib/markdown/generate-conventions.ts:42-50 | the "**Additional:**" block is present iff the custom text is not blank |
| ConventionsMd.QuickRefLines | src/lib/markdown/generate-conventions.ts:5-59 | the quick reference shows "_No conventions configured._" iff no decision resolves, and the Additional block iff the custom text is not blank, between a fixed head and a footer linking PROJECT.md |
| ConventionsMd.QuickRefRules | src/lib/markdown/generate-conventions.ts:38 | when any decision resolves, the rules are exactly one bullet per resolved decision, in decision order |
| ConventionsMd.InsertLookup | src/lib/markdown/generate-conventions.ts:91-94 | one grouping step appends the text to its category's group and changes no other group |
| ConventionsMd.InsertCategories | src/lib/markdown/generate-conventions.ts:92 | one grouping step adds the category at the end only when it is new, and keeps every group non-empty |
| ConventionsMd.GroupAllSpec | src/lib/markdown/generate-conventions.ts:89-101 | the groups are the categories in order of first appearance among surviving decisions, none is empty, and each holds exactly its decisions' texts in decision order |
| ConventionsMd.FirstAppearancesDistinct | src/lib/markdown/generate-conventions.ts:90-94 | each category gets one section, and a category has a section iff some surviving decision has it |
| ConventionsMd.GroupAllTotal | src/lib/markdown/generate-conventions.ts:91-94 | grouping loses no decision and adds none |
| ConventionsMd.FullExtra | src/lib/markdown/generate-conventions.ts:116-119 | "## Additional Conventions" and the trimmed custom text appear iff the custom text is not blank |
| ConventionsMd.FullLines | src/lib/markdown/generate-conventions.ts:61-128 | the full file has one "## category" section per group at a fixed spacing, the placeholder iff no decision resolves, the custom block iff it is not blank, and the footer linking PROJECT.md |
| ConventionsMd.QuickRefMatchesFull | src/lib/markdown/generate-conventions.ts:38 | the quick reference has one rule per text in the full file's sections, and the two files show the placeholder in the same case |
| ArchitectureMd.FindAppType | src/lib/markdown/generate-architecture.ts:9-11 | the found application type is listed with the id; nothing is found iff no listed type has it |
| ArchitectureMd.AppTypeLineKnown | src/lib/constants.ts:14-22 | a listed application type is shown by its label |
| ArchitectureMd.AppTypeLineUnknown | src/lib/markdown/generate-architecture.ts:35 | an unlisted application type is shown as its raw id, and an empty one as "_Not specified_" |
| ArchitectureMd.AppTypeIdsDistinct | src/lib/constants.ts:14-22 | no two application types share an id |
| ArchitectureMd.EnabledLayers | src/lib/markdown/generate-architecture.ts:13 | every rendered layer is a stored layer that is enabled |
| ArchitectureMd.EnabledLayersKeeps | src/lib/markdown/generate-architecture.ts:13 | every enabled layer is rendered |
| ArchitectureMd.EnabledLayersAppend | src/lib/markdown/generate-architecture.ts:13 | the filter distributes over concatenation, so layers keep their stored order |
| ArchitectureMd.LayerParts | src/lib/markdown/generate-architecture.ts:15-26 | a layer block is its "### name" heading, then the comma-joined technologies iff there are any, then the notes iff they are not empty |
| ArchitectureMd.TechBullet | src/lib/markdown/generate-architecture.ts:39-51 | an overview bullet is produced iff the field is not empty |
| ArchitectureMd.TechBulletsFollowTable | src/lib/markdown/generate-architecture.ts:39-51 | the overview lists exactly the non-empty fields in the fixed order framework, styling, database, auth, deployment, components, each with its looked-up label |
| ArchitectureMd.NoBulletsIffEmptyStack | src/lib/markdown/generate-architecture.ts:39-51 | the overview is empty iff all six tech-stack fields are empty |
| ArchitectureMd.ArchitectureLines | src/lib/markdown/generate-architecture.ts:5-65 | the document has the heading "# Architecture — name" ("Project" when blank), the application type line, the overview bullets, one block per enabled layer in stored order or "_No layers defined._" exactly when none is enabled, and the footer |
| ArchitectureMd.NoneEnabled | src/lib/markdown/generate-architecture.ts:55-57 | no layer survives the filter iff none is enabled |
| StylingMd.WithHex | src/lib/markdown/generate-styling.ts:7-8 | every listed color is a stored color with a non-empty hex |
| StylingMd.WithHexKeeps | src/lib/markdown/generate-styling.ts:8 | every color with a hex value is listed |
| StylingMd.WithHexAppend | src/lib/markdown/generate-styling.ts:8 | the filter distributes over concatenation, so colors keep their stored order |
| StylingMd.ColorsBody | src/lib/markdown/generate-styling.ts:30-32 | the table header and one row per color with a hex appear when there is at least one such color, and "_No colors defined._" otherwise |
| StylingMd.NoColorsIffNoHex | src/lib/markdown/generate-styling.ts:30-32 | the placeholder replaces the table iff no color has a hex value |
| StylingMd.FontLines | src/lib/markdown/generate-styling.ts:11-17 | there is exactly one font bullet per non-empty field, so the count is the number of non-empty fields; headings come first, monospace last, and there is none iff all three are empty |
| StylingMd.LibraryLine | src/lib/markdown/generate-styling.ts:19-21 | the component library line is never empty and is "_None selected._" when no library is set |
| StylingMd.LibraryLineListed | src/lib/markdown/generate-styling.ts:40 | a listed component library is shown by its label |
| StylingMd.NotesBlock | src/lib/markdown/generate-styling.ts:44-47 | the Additional Styling Notes block with the trimmed notes appears iff the notes are not blank |
| StylingMd.StylingLines | src/lib/markdown/generate-styling.ts:4-58 | the document has the heading "# Styling Guide — name", the colors, typography and component library sections, the optional notes block and the footer, each at its place |
| StylingMd.ColorHasRow | src/lib/markdown/generate-styling.ts:7-9 | every color with a hex value has its row in the table |
| StylingMd.DefaultColorsAllShown | src/types/project.ts:166-172 | the five default colors all have a hex value, so a new project's table has five rows |
| SchemaMd.DescriptionBlock | src/lib/markdown/generate-schema.ts:22-26 | the Description section with the trimmed description appears iff the approach is plain-english and the description is not blank |
| SchemaMd.SqlBlock | src/lib/markdown/generate-schema.ts:28-33 | the fenced SQL block with the trimmed schema appears iff the approach is paste-sql and the schema is not blank, so import-csv shows neither |
| SchemaMd.ExistingBlock | src/lib/markdown/generate-schema.ts:36-41 | the imported schema block appears iff the existing schema is not blank, whatever the non-skip approach |
| SchemaMd.TableBlock | src/lib/markdown/generate-schema.ts:47-58 | a table block is "### name" ("Unnamed Table" when blank), then the description and the columns only when each is not empty |
| SchemaMd.TableBlocksAppend | src/lib/markdown/generate-schema.ts:46-59 | the blocks of two table lists are the blocks of each in turn |
| SchemaMd.TableHeadingAt | src/lib/markdown/generate-schema.ts:46-47 | the block of table i opens with that table's heading, right after the blocks of the tables before it |
| SchemaMd.TablesSection | src/lib/markdown/generate-schema.ts:43-60 | the Tables section appears iff there are tables |
| SchemaMd.SchemaLines | src/lib/markdown/generate-schema.ts:3-70 | the skipped approach yields the title and the placeholder only, with no footer; every other approach yields the title, the body sections and the PROJECT.md footer |
| SchemaMd.DescriptionOrSql | src/lib/markdown/generate-schema.ts:22-33 | the description and the pasted SQL never both appear |
| SchemaMd.PastedSqlFirst | src/lib/markdown/generate-schema.ts:28-33 | with pasted SQL the body opens with the SQL heading and the trimmed schema between the fences |
| SchemaMd.DescriptionFirst | src/lib/markdown/generate-schema.ts:22-26 | with a plain-english description the body opens with it, trimmed |
| SchemaMd.EmptySchema | src/lib/markdown/generate-schema.ts:15-20 | a non-skipped schema with nothing to show is just the title lines and the footer |
| SchemaMd.SkippedIff | src/lib/markdown/generate-schema.ts:6-13 | the skip placeholder is on the third line iff the database step was skipped |
| ConventionCatalog.FilterApplicable | src/data/conventions/index.ts:27-29 | a question is kept iff it is in the list and its `applicableTo` holds the framework |
| ConventionCatalog.FilterApplicableAppend | src/data/conventions/index.ts:15-20 | the framework filter distributes over concatenation, so kept questions keep their relative order |
| ConventionCatalog.DropIds | src/data/conventions/index.ts:32-33 | a general question is kept iff its id is not already used by the stack-specific list |
| ConventionCatalog.DropIdsAppend | src/data/conventions/index.ts:33 | the id filter distributes over concatenation, so survivors keep their relative order |
| ConventionCatalog.ConventionsByFramework | src/data/conventions/index.ts:6-21 | exactly nextjs, react-vite, python-fastapi, python-django and express have a list; react-vite and python-django are the nextjs and fastapi lists filtered by `applicableTo`, and express concatenates both filtered lists |
| ConventionCatalog.ConventionsForStack | src/data/conventions/index.ts:23-36 | the result opens with the framework's own list (empty for an unknown framework), followed by exactly the general questions for the framework whose ids the own list does not use, in catalog order (the tail is the id-filtered list of applicable general questions) |
| ConventionCatalog.StackListUniqueIds | src/data/conventions/index.ts:31-35 | with duplicate-free source lists the stack list has unique ids |
| ConventionCatalog.DedupFrom | src/data/conventions/index.ts:46-51 | the filtered list has unique ids, holds only questions of the input, and keeps some question for every id of the input |
| ConventionCatalog.DedupKeepsFirst | src/data/conventions/index.ts:47-50 | the question kept for an id is the first one carrying it |
| ConventionCatalog.AllConventionQuestions | src/data/conventions/index.ts:38-52 | all questions have unique ids, their ids are exactly those of the nextjs, fastapi and general lists, and every question comes from one of them |
| ConventionCatalog.DedupKeepsIds | src/data/conventions/index.ts:46-51 | dropping repeats keeps every id |
| ConventionCatalog.NextjsQuestionsKept | src/data/conventions/index.ts:39-43 | a nextjs question wins over any later question with the same id |
| ConventionCatalog.FastapiDerivedLists | src/data/conventions/index.ts:12-20 | Django gets only the project-structure question of the FastAPI list, and Express gets the api-style question after the filtered nextjs questions |
| FastapiConventions.Questions | src/data/conventions/python-fastapi.ts:3-77 | the FastAPI catalog holds three questions |
| FastapiConventions.ProjectStructureFacts | src/data/conventions/python-fastapi.ts:4-27 | project-structure is required, has two options of which exactly one is recommended, and each text opens with "**" |
| FastapiConventions.ApiStyleFacts | src/data/conventions/python-fastapi.ts:28-51 | api-style is required, has two options of which exactly one is recommended, and each text opens with "**" |
| FastapiConventions.ErrorHandlingFacts | src/data/conventions/python-fastapi.ts:52-75 | python-error-handling is required, has two options of which exactly one is recommended, and each text opens with "**" |
| FastapiConventions.CatalogShape | src/data/conventions/python-fastapi.ts:5-57 | the ids are project-structure, api-style and python-error-handling, in that order; project-structure also serves Django, api-style also serves Express, and error handling is FastAPI-only |
| TechStacks.FindCategory | src/data/tech-stacks.ts:85 | the category found is the first with the id, and none is found iff no category has it |
| TechStacks.FindOption | src/data/tech-stacks.ts:87 | the option found is the first with the id, and none is found iff no option has it |
| TechStacks.GetTechLabel | src/data/tech-stacks.ts:84-89 | the label is the option id itself or the label of a listed option with that id in a category with that id |
| TechStacks.UnknownCategoryLabel | src/data/tech-stacks.ts:85-86 | an unknown category id gives back the option id |
| TechStacks.UnknownOptionLabel | src/data/tech-stacks.ts:87-88 | an option id missing from a known category gives back the option id |
| TechStacks.LabelOfListedOption | src/data/tech-stacks.ts:88 | every listed option of every category gets its own label |
| TechStacks.LabelInListed | src/data/tech-stacks.ts:84-89 | over any category table with unique ids, a listed option's lookup finds its own label |
| TechStacks.CategoryIdsUnique | src/data/tech-stacks.ts:75-82 | there are six categories, with distinct ids, in the order framework, styling, database, auth, deployment, componentLibrary |
| TechStacks.OptionIdsUnique | src/data/tech-stacks.ts:13-73 | option ids are unique within every category |
| SmartDefaults.GetSmartDefaults | src/data/smart-defaults.ts:22-125 | every branch returns the seven default layers with their ids and names, in the default order |
| SmartDefaults.NextjsDefaults | src/data/smart-defaults.ts:26-50 | for nextjs: a web app with frontend and backend on, the database and auth layers on iff the choice is not "none" (so "" turns them on), the frontend listing "Tailwind CSS" after "Next.js" iff tailwind is chosen, and the other layers at their defaults |
| SmartDefaults.ReactViteDefaults | src/data/smart-defaults.ts:52-73 | for react-vite: a web app with the frontend on listing React and Vite, the backend at its default, database and auth on iff not "none", and the other layers at their defaults |
| SmartDefaults.FastapiDefaults | src/data/smart-defaults.ts:75-96 | for python-fastapi: an api app with the frontend off and the backend on with FastAPI and Python, database and auth on iff not "none", and the other layers at their defaults |
| SmartDefaults.StaticDefaults | src/data/smart-defaults.ts:98-113 | for static: a static-site app with only the frontend on and no recommendations |
| SmartDefaults.UnknownFrameworkDefaults | src/data/smart-defaults.ts:115-123 | for any other framework: a web app with the default layers unchanged and no suggestions or recommendations |
| Project.DefaultState | src/types/project.ts:132-201 | a new project is on step 1 with furthest step 1 and version 1, stamped with the given time and id; its stack is empty, its database step skipped with no tables, it has no features, tasks, decisions or overrides, its five colors are Primary, Secondary, Accent, Background and Text with their hex values, and deployment is off |
| Prompts.ProjectName | src/lib/prompts/index.ts:35 | the project line names the project when it has a name, and otherwise a non-empty fallback |
| Prompts.TechPartsFollowFields | src/lib/prompts/index.ts:5-15 | the tech-stack summary lists one label per non-empty choice in the architecture field-table order, leaving out the deployment target |
| Prompts.DeploymentNotSummarised | src/lib/prompts/index.ts:5-15 | changing the deployment target never changes the tech-stack summary |
| Prompts.ChoiceLine | src/lib/prompts/index.ts:24 | a decision line opens with the bullet, the question and a colon, and ends with the option's label |
| Prompts.ChoiceLines | src/lib/prompts/index.ts:17-28 | the convention summary has one line per decision whose question and option both resolve, in decision order |
| Prompts.ChoiceLinesAppendOne | src/lib/prompts/index.ts:19-26 | a decision that does not resolve adds nothing; one that resolves adds its line at the end |
| Prompts.DecisionsBlock | src/lib/prompts/index.ts:41 | the already-made-decisions block appears iff at least one decision resolves |
| Prompts.NamedTables | src/lib/prompts/index.ts:52-53 | the sketched tables are drawn from the stored ones and all have a name |
| Prompts.NamedTablesKeeps | src/lib/prompts/index.ts:53 | every stored table with a name is sketched |
| Prompts.NamedTablesAppend | src/lib/prompts/index.ts:53 | the sketch keeps the stored table order |
| Prompts.TableItem | src/lib/prompts/index.ts:54-58 | a table bullet opens with its name, adds the description after a colon only when set, and ends with the columns when set |
| Prompts.TableItems | src/lib/prompts/index.ts:52-59 | one non-empty bullet per named table, in order |
| Prompts.SketchBlock | src/lib/prompts/index.ts:67 | the sketched-tables block appears iff some table has a name |
| Prompts.NeedsBlock | src/lib/prompts/index.ts:67 | the plain-English needs block appears iff a description was written |
| Prompts.SchemaTablesExactly | src/lib/prompts/index.ts:52-60 | a stored table is in the schema prompt's sketch iff it has a name |
| Prompts.LayerItem | src/lib/prompts/index.ts:79 | a layer bullet opens with the layer's name and carries more iff the layer has notes |
| Prompts.LayerItems | src/lib/prompts/index.ts:77-80 | one non-empty bullet per enabled layer, in layer order |
| Prompts.LayerList | src/lib/prompts/index.ts:77-93 | with no enabled layer the fallback line; otherwise the list starts with the first enabled layer's bullet |
| Prompts.FeatureItem | src/lib/prompts/index.ts:83 | a feature bullet opens with the feature's name and a colon |
| Prompts.FeatureItems | src/lib/prompts/index.ts:82-84 | one non-empty bullet per feature, in feature order |
| Prompts.FeatureList | src/lib/prompts/index.ts:82-96 | the feature list is the no-features fallback iff there are no features |
| Prompts.FeatureJoin | src/lib/prompts/index.ts:82-96 | the joined feature bullets are empty only without features and never read as the fallback line |
| Prompts.FindFeature | src/lib/prompts/index.ts:118 | the lookup finds a listed feature with the id, and fails iff no feature has it |
| Prompts.TaskItem | src/lib/prompts/index.ts:123-126 | a task bullet opens with the task's name and carries a done-when line iff the definition of done is set |
| Prompts.TaskItems | src/lib/prompts/index.ts:121-127 | one non-empty bullet per task that lists the feature, in task order |
| Prompts.RuleItems | src/lib/prompts/index.ts:129-132 | one bullet per non-blank business rule, in order |
| Prompts.RulesBlock | src/lib/prompts/index.ts:140 | the Business Rules block appears iff some rule is not blank |
| Prompts.TablesLine | src/lib/prompts/index.ts:140 | the Related Tables line appears iff the feature has related tables |
| Prompts.TasksBlock | src/lib/prompts/index.ts:141 | the task block appears iff some task lists the feature |
| Prompts.FeatureBrief | src/lib/prompts/index.ts:134-142 | a found feature's prompt opens with the read-PROJECT.md instruction |
| Prompts.FeaturePrompt | src/lib/prompts/index.ts:114-143 | the feature prompt is empty iff no feature has the id, and otherwise opens with the read-PROJECT.md instruction |
| Prompts.FeatureTasksExactly | src/lib/prompts/index.ts:121-122 | a task is in the feature prompt's task list iff its feature ids hold the feature |
| Prompts.FeatureRulesExactly | src/lib/prompts/index.ts:129-130 | a rule is in the feature prompt's rule list iff it is not blank |
| Prompts.ConventionsPromptWith | src/lib/prompts/index.ts:30-36 | the conventions prompt opens with the framework intro, the project line and the tech-stack line |
| Prompts.SchemaPromptWith | src/lib/prompts/index.ts:51-65 | the schema prompt opens with the framework intro, the project line and the tech-stack line |
| Prompts.SkeletonPromptWith | src/lib/prompts/index.ts:76-89 | the skeleton prompt opens with the skeleton intro, the project line and the tech-stack line |
| Reducer.FeatureMergeLaws | src/contexts/project-context.tsx:95-104 | merging feature updates composes (updating twice is updating once with the later fields winning), an empty update changes nothing, a full update replaces the feature, and repeating an update changes nothing more |
| Reducer.Without | src/contexts/project-context.tsx:106-113 | removal by id leaves no element with the id, keeps every element without it, adds nothing, and shortens the list by the number of matches |
| Reducer.WithoutAppend | src/contexts/project-context.tsx:109-111 | removal keeps the order of what stays |
| Reducer.WithoutAbsent | src/contexts/project-context.tsx:140-145 | removing an id nobody has changes nothing, and removing twice is removing once |
| Reducer.UpdateById | src/contexts/project-context.tsx:129-138 | an update by id keeps the length and order, merges into exactly the elements with the id and leaves the others equal |
| Reducer.UpdateThenRemove | src/contexts/project-context.tsx:95-113 | updating an element without changing its id and then removing the id is the same as removing it straight away |
| Reducer.EditFrame | src/contexts/project-context.tsx:52-183 | every editing action writes only its own slice of the project and stamps updatedAt; every other slice and every other meta field stay as they were |
| Reducer.StepFacts | src/contexts/project-context.tsx:154-166 | SET_STEP moves to the requested step, never lowers the furthest step reached, leaves it at least the current step, and changes nothing outside meta |
| Reducer.Furthest | src/contexts/project-context.tsx:160-163 | the reference furthest step is at least the starting one and every requested step |
| Reducer.StepsReachFurthest | src/contexts/project-context.tsx:154-166 | after any run of SET_STEP the furthest step is the largest step ever requested (or the one before the run) and the current step is the last one requested |
| Reducer.StepsStayConsistent | src/contexts/project-context.tsx:52-193 | every action keeps the current step within the furthest step reached (LOAD_STATE when its payload does), and only LOAD_STATE and RESET_PROJECT can lower the furthest step |
| Reducer.AddFeatureAppends | src/contexts/project-context.tsx:88-93 | ADD_FEATURE appends the feature at the end and keeps every existing feature in place |
| Reducer.AddTaskAppends | src/contexts/project-context.tsx:122-127 | ADD_TASK appends the task at the end and keeps every existing task in place |
| Reducer.UpdateFeatureFacts | src/contexts/project-context.tsx:95-104 | UPDATE_FEATURE merges the updates into the features with the id and leaves the length, order and every other feature unchanged |
| Reducer.UpdateTaskFacts | src/contexts/project-context.tsx:129-138 | UPDATE_TASK merges the updates into the tasks with the id and leaves the length, order and every other task unchanged |
| Reducer.RemoveFeatureFacts | src/contexts/project-context.tsx:106-113 | REMOVE_FEATURE drops every feature with the id, keeps every other one, and leaves the tasks alone, so task links to the removed feature dangle |
| Reducer.RemoveTaskFacts | src/contexts/project-context.tsx:140-145 | REMOVE_TASK drops every task with the id, keeps every other one, and leaves the features alone |
| Reducer.UpdateThenRemoveFeature | src/contexts/project-context.tsx:95-113 | removing a feature after an update that keeps its id leaves the same features as removing it at once |
| Reducer.OverrideFacts | src/contexts/project-context.tsx:168-176 | SET_MARKDOWN_OVERRIDE maps its key to the value and every other key keeps its presence and value |
| Reducer.WholesaleFacts | src/contexts/project-context.tsx:115-120 | the reorder actions replace the list wholesale, LOAD_STATE returns its payload, and an unrecognised action returns the state unchanged |
| Reducer.ResetFacts | src/contexts/project-context.tsx:188-189 | RESET_PROJECT discards features, tasks and overrides and starts a fresh default project at step 1 |
| Reducer.EmptyPatchOnlyStamps | src/contexts/project-context.tsx:53-86 | a SET action with an empty payload changes nothing but the updatedAt stamp |
| Wizard.StepTableShape | src/types/wizard.ts:10-83 | the step table has nine steps numbered 1 to 9 in order; only the database step is conditional and only the deployment step is optional |
| Wizard.StepIdsDistinct | src/types/wizard.ts:10-83 | no two steps share an id |
| Wizard.FindStep | src/components/wizard/wizard-navigation.tsx:17 | a step number finds its step iff it lies in 1..9, and the found step carries that number |
| Wizard.NextTarget | src/components/wizard/wizard-navigation.tsx:21-28 | Next is hidden exactly on the last step, always moves forward, and never lands on the database step when the database layer is off |
| Wizard.BackTarget | src/components/wizard/wizard-navigation.tsx:30-37 | Back is disabled exactly on the first step, always moves backward, and never lands on the database step when the database layer is off |
| Wizard.SkipTarget | src/components/wizard/wizard-navigation.tsx:39-44 | Skip exists only on the optional last step and asks for the step after it, which is not in the table |
| Wizard.NextLabel | src/components/wizard/wizard-navigation.tsx:46-52 | the Next caption names the review step from the tasks step, the deployment guide from the review step, and is "Next" elsewhere |
| Wizard.BackUndoesNext | src/components/wizard/wizard-navigation.tsx:21-37 | on every step the wizard can show, Back after Next returns to the step, and Next after Back does too |
| Wizard.WalkVisitsApplicable | src/components/wizard/wizard-navigation.tsx:21-28 | pressing Next from step 1 visits every step in order, visiting the database step exactly when its layer is on |
| Wizard.ApplicableNumbers | src/components/wizard/wizard-progress.tsx:16-24 | the progress bar shows nine steps with the database layer and eight without, strictly increasing, within 1..9, with step 5 only when the layer is on |
| Wizard.ApplicableFromShape | src/components/wizard/wizard-progress.tsx:16-24 | for any table of nine numbered steps where only step 5 is conditional, the filter leaves exactly the applicable step numbers |
| Wizard.ApplicableFromTable | src/components/wizard/wizard-progress.tsx:16-24 | the filter over the wizard's step table leaves exactly the applicable step numbers |
| Wizard.IndexOf | src/components/wizard/wizard-progress.tsx:26-28 | the index lookup finds the first position holding the step, or -1 iff no position does |
| Wizard.WindowStart | src/components/wizard/wizard-progress.tsx:31-40 | the window starts at 0 when everything fits, otherwise stays inside the list, and always contains a current index that lies in the list |
| Wizard.ProgressOf | src/components/wizard/wizard-progress.tsx:42-49 | the visible steps are the applicable steps from the window start on, at most four of them |
| Wizard.ProgressFacts | src/components/wizard/wizard-progress.tsx:31-49 | the window always shows four steps, each arrow lights up exactly when steps lie outside the window on its side, and an applicable current step is always in view |
| Wizard.ClickTarget | src/components/wizard/wizard-progress.tsx:51-55 | a click navigates iff the step is not ahead of the current one, and then to that step |
| Wizard.ScrollLeftTarget | src/components/wizard/wizard-progress.tsx:58-63 | the left arrow navigates only when steps lie left of the window, and never ahead of the current step |
| Wizard.ScrollRightTarget | src/components/wizard/wizard-progress.tsx:65-70 | the right arrow navigates only when steps lie right of the window, and never ahead of the current step |
| Wizard.ProgressBarKeepsFurthest | src/components/wizard/wizard-progress.tsx:51-70 | navigating from the progress bar never changes the furthest step reached of a consistent project |
| Wizard.EffectiveStep | src/components/wizard/wizard-shell.tsx:41-43 | the shell shows step 5 only when the database layer is on, and otherwise shows step 6 in its place, changing no other step |
| Wizard.StepScreen | src/components/wizard/wizard-shell.tsx:19-29 | a step number has a screen iff it lies in 1..9, and that screen is the step's own |
| Wizard.ShellOf | src/components/wizard/wizard-shell.tsx:31-68 | the layout is wide exactly on the review step, the export banner shows exactly when the review step was reached and is not on screen, and a screen shows iff the effective step is in 1..9 |
| Wizard.SkipFromLastShowsNothing | src/components/wizard/wizard-shell.tsx:45-64 | skipping the deployment step asks for step 10, where no step screen shows |
| StepEdits.SetAt | src/components/wizard/steps/step-features.tsx:79-83 | writing a row replaces that row and keeps the length and every other row |
| StepEdits.RemoveAt | src/components/wizard/steps/step-features.tsx:85-88 | removing a row by index shifts every later row down by one, and an index outside the list removes nothing |
| StepEdits.AddThenRemove | src/components/wizard/steps/step-features.tsx:75-88 | adding a blank row and removing it again restores the list |
| StepEdits.Toggle | src/components/wizard/steps/step-tasks.tsx:207-213 | toggling flips whether the element is present, leaves every other element's presence alone, and appends when adding |
| StepEdits.Drop | src/components/wizard/steps/step-tasks.tsx:210 | filtering an element out removes every copy and keeps every other element |
| StepEdits.ToggleTwice | src/components/wizard/steps/step-features.tsx:107-113 | toggling twice restores a list without the element, and leaves a list that had it with one copy moved to the end |
| StepEdits.Move | src/components/wizard/steps/step-tasks.tsx:88 | moving puts the dragged element at the target position, keeps the order of the others, and keeps the same elements |
| StepEdits.MoveBack | src/components/wizard/steps/step-tasks.tsx:88 | moving the element back undoes the move |
| StepEdits.IndexById | src/components/wizard/steps/step-tasks.tsx:86-87 | the id lookup returns a position holding the id, or -1 iff no element has it |
| StepEdits.NextTaskNumber | src/components/wizard/steps/step-tasks.tsx:57-60 | the next task number exceeds every existing one, is 1 without tasks, and is otherwise one past an existing number |
| StepEdits.AddTaskEdit | src/components/wizard/steps/step-tasks.tsx:56-72 | adding a task is possible iff fewer than the maximum exist, and adds a blank unlinked task numbered past every other, placed last |
| StepEdits.AddTaskNumberFresh | src/components/wizard/steps/step-tasks.tsx:56-72 | after adding a task its number is shared by no other task |
| StepEdits.RenumberTasks | src/components/wizard/steps/step-tasks.tsx:88-90 | renumbering sets each task's sortOrder to its position and changes nothing else |
| StepEdits.TaskMoveFacts | src/components/wizard/steps/step-tasks.tsx:86-91 | a drag keeps the same tasks and numbers them by their new position |
| StepEdits.DragTasks | src/components/wizard/steps/step-tasks.tsx:82-92 | a drag dispatches nothing without a drop target or onto itself, and otherwise the same tasks with sortOrder equal to position |
| StepEdits.Orphans | src/components/wizard/steps/step-tasks.tsx:51-54 | the orphan warning lists exactly the tasks linked to no feature |
| StepEdits.ToggleTaskFeature | src/components/wizard/steps/step-tasks.tsx:207-213 | the feature checkbox updates this task only and flips whether it links to the feature |
| StepEdits.FeatureNameEdit | src/components/wizard/steps/step-features.tsx:63-72 | renaming a feature sets its name and a slug of lower-case letters, digits and single hyphens |
| StepEdits.AddRow | src/components/wizard/steps/step-features.tsx:75-77 | adding a criterion or rule appends one blank row and keeps the rows before it |
| StepEdits.UpdateRow | src/components/wizard/steps/step-features.tsx:95-99 | editing a row replaces that row only |
| StepEdits.RemoveRow | src/components/wizard/steps/step-features.tsx:101-104 | deleting a row removes that row by index only |
| StepEdits.RowEditsFrame | src/components/wizard/steps/step-features.tsx:75-104 | row edits touch only their own list of the feature |
| StepEdits.ToggleTable | src/components/wizard/steps/step-features.tsx:107-113 | toggling a related table flips its presence and leaves every other table's presence alone |
| StepEdits.AddFeatureEdit | src/components/wizard/steps/step-features.tsx:353-365 | adding a feature is possible iff fewer than the maximum exist, and adds a blank feature with one empty rule, placed last |
| StepEdits.RenumberFeatures | src/components/wizard/steps/step-features.tsx:385-388 | renumbering sets each feature's sortOrder to its position and changes nothing else |
| StepEdits.FeatureMoveFacts | src/components/wizard/steps/step-features.tsx:379-390 | a drag keeps the same features and numbers them by their new position |
| StepEdits.DragFeatures | src/components/wizard/steps/step-features.tsx:375-392 | a drag dispatches nothing without a drop target or onto itself, and otherwise the same features with sortOrder equal to position |
| StepEdits.DragFeatureLands | src/components/wizard/steps/step-features.tsx:379-390 | the dragged feature lands on the drop target's position |
| StepEdits.ProjectNameEdit | src/components/wizard/steps/step-project-identity.tsx:30-40 | renaming the project sets the name and a valid project slug and touches neither the purpose nor the stack |
| StepEdits.PurposeEdit | src/components/wizard/steps/step-project-identity.tsx:43-48 | a purpose edit changes the purpose and nothing else of the identity |
| StepEdits.WithStack | src/components/wizard/steps/step-project-identity.tsx:51-64 | a stack selection sets one field and keeps every other field |
| StepEdits.WithStackSame | src/components/wizard/steps/step-project-identity.tsx:58-61 | writing back a field's current value changes nothing |
| StepEdits.StackEditFacts | src/components/wizard/steps/step-project-identity.tsx:51-64 | a stack change replaces one selection and keeps the others and every other identity field |
| StepEdits.ApproachEdit | src/components/wizard/steps/step-database.tsx:18-23 | an approach change changes the approach and nothing else of the database |
| StepEdits.ApproachRoundTrip | src/components/wizard/steps/step-database.tsx:18-23 | switching the approach away and back loses no description, pasted schema or table |
| StepEdits.AddTableEdit | src/components/wizard/steps/step-database.tsx:39-53 | adding a table appends one blank table and leaves the approach alone |
| StepEdits.RemoveTableEdit | src/components/wizard/steps/step-database.tsx:55-62 | removing a table drops exactly the tables with the id and adds nothing |
| StepEdits.TableEdit | src/components/wizard/steps/step-database.tsx:64-73 | a table edit sets the named field of the matching tables and keeps every other table |
| StepEdits.MountEdit | src/components/wizard/steps/step-architecture.tsx:26-43 | mounting applies the smart defaults for the stack exactly when no layer exists yet |
| StepEdits.MountSeedsOnce | src/components/wizard/steps/step-architecture.tsx:26-30 | mounting on a project without layers leaves the seven default layers, and mounting again changes nothing |
| StepEdits.ToggleLayer | src/components/wizard/steps/step-architecture.tsx:52-60 | a layer toggle flips the enabled flag of the matching layers only |
| StepEdits.ToggleLayerTwice | src/components/wizard/steps/step-architecture.tsx:52-60 | toggling a layer twice restores the layers |
| StepEdits.LayerNotes | src/components/wizard/steps/step-architecture.tsx:62-70 | a notes edit sets the notes of the matching layers only |
| StepEdits.UpdateColor | src/components/wizard/steps/step-styling.tsx:44-49 | a color edit sets one field of the matching colors and keeps the palette's length, order, ids and other colors |
| StepEdits.UpdateFont | src/components/wizard/steps/step-styling.tsx:51-61 | a font edit changes exactly one of the three fonts |
| StepEdits.StylingEditFacts | src/components/wizard/steps/step-styling.tsx:44-69 | each styling edit changes one part of the styling, stores library and notes verbatim, and never touches the logo |
| ConventionsStep.QuestionsFor | src/components/wizard/steps/step-conventions.tsx:22-25 | the screen asks the questions of the chosen framework, and those of Next.js while no framework is chosen |
| ConventionsStep.Find | src/components/wizard/steps/step-conventions.tsx:34 | the decision lookup finds a stored decision for the question, and fails iff none exists |
| ConventionsStep.Selected | src/components/wizard/steps/step-conventions.tsx:32-38 | a question without a decision has no selected option, and a selected option comes from a decision for that question |
| ConventionsStep.FindAppend | src/components/wizard/steps/step-conventions.tsx:34 | the first match in a concatenation is the first list's when it has one |
| ConventionsStep.FindWithout | src/components/wizard/steps/step-conventions.tsx:41 | dropping another question's decisions does not change what is found |
| ConventionsStep.SelectOption | src/components/wizard/steps/step-conventions.tsx:40-47 | choosing drops every earlier decision for the question, keeps every other decision, and appends the new one with no custom answer |
| ConventionsStep.SelectedAfterSelect | src/components/wizard/steps/step-conventions.tsx:40-47 | after choosing, the question reads back the chosen option |
| ConventionsStep.SelectKeepsOthers | src/components/wizard/steps/step-conventions.tsx:40-47 | choosing leaves every other question's answer as it was |
| ConventionsStep.SelectLastWins | src/components/wizard/steps/step-conventions.tsx:40-47 | choosing twice is choosing the second answer once |
| ConventionsStep.SelectActionFacts | src/components/wizard/steps/step-conventions.tsx:40-47 | through the reducer the choice lands in the project and the custom conventions text is kept |
| ConventionsStep.FirstRecommended | src/components/wizard/steps/step-conventions.tsx:62 | the recommended-option lookup finds a recommended option, and fails iff none is recommended |
| ConventionsStep.Choice | src/components/wizard/steps/step-conventions.tsx:51-70 | a non-empty smart default wins; otherwise the first recommended option; otherwise no answer |
| ConventionsStep.Recommended | src/components/wizard/steps/step-conventions.tsx:49-75 | the applied defaults hold at most one decision per question, each with an option, no custom answer, and a listed question |
| ConventionsStep.RecommendedSelects | src/components/wizard/steps/step-conventions.tsx:49-75 | after applying the defaults each listed question reads back its recommended answer and no unlisted question has one |
| ConventionsStep.AnsweredCount | src/components/wizard/steps/step-conventions.tsx:87-89 | the counter never exceeds the questions, equals them iff every question is answered, and is zero iff none is |
| ConventionsStep.AnsweredAfterRecommended | src/components/wizard/steps/step-conventions.tsx:87-89 | once every question shows its recommended answer the counter equals the number of decisions applied |
| ConventionsStep.ApplyRecommendedFacts | src/components/wizard/steps/step-conventions.tsx:49-89 | after applying the defaults the counter reads one answer per decision and every question shows its recommended answer |
| ConventionsStep.GroupingMembers | src/components/wizard/steps/step-conventions.tsx:78-85 | a category is a heading iff some question has it, and each group holds exactly its category's questions |
| ConventionsStep.AddQuestion | src/components/wizard/steps/step-conventions.tsx:80-83 | one loop turn opens a heading on a category's first question and otherwise appends to its group |
| ConventionsStep.Group | src/components/wizard/steps/step-conventions.tsx:78-85 | the grouping yields distinct headings in order of first appearance, each with its category's questions in list order |
| Review.FilterFacts | src/components/wizard/steps/step-review.tsx:52-74 | a filter keeps exactly the elements that pass; it keeps all iff all pass and none iff none pass |
| Review.LinkedIdsFacts | src/components/wizard/steps/step-review.tsx:57 | a feature id is linked iff some task lists it |
| Review.UnlinkedFacts | src/components/wizard/steps/step-review.tsx:57-58 | the unlinked features are exactly those whose id no task lists, and there are none iff every feature is listed by some task |
| Review.Names | src/components/wizard/steps/step-review.tsx:60 | each unlinked feature is named by its name, or "Unnamed" when the name is empty, in order |
| Review.TallyOf | src/components/wizard/steps/step-review.tsx:73-75 | the answered decisions never outnumber the decisions |
| Review.ConventionCheck | src/components/wizard/steps/step-review.tsx:72-80 | the convention line is absent iff decisions exist and all are answered; it is the no-decisions hint for an empty list and otherwise the unanswered count |
| Review.ChecksOfFacts | src/components/wizard/steps/step-review.tsx:49-82 | a tally yields no warning iff every count is zero and every convention decision is answered, and a zero orphan count yields no orphan line |
| Review.Warnings | src/components/wizard/steps/step-review.tsx:49-82 | the screen lists one message per check, in display order |
| Review.UnnamedZeroIff | src/components/wizard/steps/step-review.tsx:52-55 | no unnamed-feature warning iff every feature name has non-space text |
| Review.UnlinkedZeroIff | src/components/wizard/steps/step-review.tsx:57-61 | no unlinked-feature warning iff every feature is listed by some task |
| Review.NoDoneZeroIff | src/components/wizard/steps/step-review.tsx:63-66 | no definition-of-done warning iff every task's definition of done has non-space text |
| Review.OrphanedZeroIff | src/components/wizard/steps/step-review.tsx:68-71 | no orphan warning iff every task lists at least one feature |
| Review.AnsweredAllIff | src/components/wizard/steps/step-review.tsx:73-76 | no unanswered count iff every decision has a selected option |
| Review.NoWarningsIffClean | src/components/wizard/steps/step-review.tsx:49-82 | the review shows no warning iff every feature is named and linked, every task has a definition of done and a feature, and decisions exist and are all answered |
| Review.DanglingIdsAreNotOrphans | src/components/wizard/steps/step-review.tsx:68-71 | a task whose feature ids point at no existing feature is not reported as an orphan |
| Review.Badge | src/components/wizard/steps/step-review.tsx:353-366 | only PROJECT.md's badge is coloured: destructive from the danger threshold, secondary from the warning threshold below it, outline otherwise |
| Review.FindPath | src/components/wizard/steps/step-review.tsx:84-89 | the path lookup finds a listed file with the path, and fails iff no file has it |
| Review.FindFirst | src/components/wizard/steps/step-review.tsx:89 | the lookup returns the first file with the path |
| Review.ProjectBanner | src/components/wizard/steps/step-review.tsx:158-173 | a banner shows only when a PROJECT.md reaches the warning threshold, and never without a PROJECT.md |
| Review.BannerMatchesBadge | src/components/wizard/steps/step-review.tsx:158-173 | the banner shows iff PROJECT.md's badge is coloured, and is red iff the badge is destructive |
| Review.TotalWords | src/components/wizard/steps/step-review.tsx:88 | with non-negative counts the total is non-negative and at least each file's count |
| Review.TotalWordsAppend | src/components/wizard/steps/step-review.tsx:88 | the total is additive over a split of the file list |
| Review.SaveEdit | src/components/wizard/steps/step-review.tsx:114-123 | saving dispatches iff a file is selected, and then an override for exactly its path with the edited text |
| Review.SavedEditShows | src/components/wizard/steps/step-review.tsx:114-123 | after saving, the regenerated list has the same files, the edited file holds the saved text and its word count, and every file at another path is unchanged |
| Chat.MaxOrZero | src/components/chat/chat-widget.tsx:170-173 | the highest task number, or 0 without tasks |
| Chat.IdentityOutcome | src/components/chat/chat-widget.tsx:139-148 | the identity tool patches the name and purpose exactly when given non-empty, touches no other identity field, and reports "Updated project identity" |
| Chat.NewFeature | src/components/chat/chat-widget.tsx:150-164 | a chat-added feature takes the given name or "Unnamed feature", a valid project-style slug of that name, no related tables, and a sortOrder past the features and those added earlier in the batch |
| Chat.NewTask | src/components/chat/chat-widget.tsx:169-185 | a chat-added task is numbered past every existing task, shifted by the tasks added earlier in the batch, is not started, links to no feature, and stores the out-of-scope text |
| Chat.Execute | src/components/chat/chat-widget.tsx:130-204 | each known tool dispatches its action, and an unknown tool dispatches nothing and reports the tool's name |
| Chat.RunBatch | src/components/chat/chat-widget.tsx:405-421 | a batch runs every call against the same pre-batch state, with the offsets counting the same tool's earlier calls |
| Chat.OffsetGrows | src/components/chat/chat-widget.tsx:418-419 | a later call of a tool sees at least one more earlier call of it than an earlier call does |
| Chat.BatchTaskNumbers | src/components/chat/chat-widget.tsx:169-187 | the add-task calls of one batch get the next free number plus their offset, past every existing task, and later calls get strictly larger numbers |
| FileTree.FindFolder | src/lib/export/file-tree.ts:26-28 | the folder lookup returns the first folder of that name on the level, or the level's length when there is none |
| FileTree.Insert | src/lib/export/file-tree.ts:12-35 | placing one file keeps every node of the level in place, appends the file as a leaf at the last segment, and reuses the first folder of a name or appends one new folder |
| FileTree.AddFilesExtends | src/lib/export/file-tree.ts:11-36 | placing files never moves or drops a node already there |
| FileTree.InsertAddsLeaf | src/lib/export/file-tree.ts:15-35 | one placement adds exactly one leaf, carrying the file's path |
| FileTree.InsertKeepsUnique | src/lib/export/file-tree.ts:26-32 | a placement never creates a second folder of one name on a level |
| FileTree.InsertWellPlaced | src/lib/export/file-tree.ts:12-35 | a placement puts the leaf below the folders its path names |
| FileTree.AddFilesFacts | src/lib/export/file-tree.ts:11-36 | placing a list of files adds one leaf per file, keeps folder names unique per level, and keeps every leaf under the folders its path names |
| FileTree.BuildFileTree | src/lib/export/file-tree.ts:4-39 | the tree is a root folder named project-framework whose leaves are exactly the files' paths, one per file, with unique folder names per level and every leaf where its path says |
| FileTree.BuildFileTreeLoop | src/lib/export/file-tree.ts:4-39 | the loop over the files builds the same tree |
| FileTree.InsertionOrder | src/lib/export/file-tree.ts:11-36 | nothing is sorted: the top-level nodes after some files keep their places when more files follow |
| FileTree.AddFilesSplit | src/lib/export/file-tree.ts:11-36 | placing two lists of files one after the other is placing their concatenation |
| FileTree.DuplicatePathsTwoLeaves | src/lib/export/file-tree.ts:19-24 | only folders are shared: two files with the same path give two leaves |
| FileTree.InsertNode | src/app/examples/example-viewer.tsx:62-64 | inserting a node into a level adds it and keeps every other node |
| FileTree.SortLevel | src/app/examples/example-viewer.tsx:62-64 | sorting a level keeps the same nodes |
| FileTree.SortTree | src/app/examples/example-viewer.tsx:61-68 | sorting the tree keeps the number of top-level nodes |
| FileTree.SortTreeSorted | src/app/examples/example-viewer.tsx:61-68 | after sorting, every level of the tree is in comparator order |
| FileTree.FoldersFirst | src/app/examples/example-viewer.tsx:63 | on a sorted level every folder comes before every file |
| FileTree.SameKindOrdered | src/app/examples/example-viewer.tsx:64 | with a transitive comparator, any two nodes of one kind on a sorted level are in name order |
| FileTree.SortTreeLeaves | src/app/examples/example-viewer.tsx:61-68 | sorting moves nodes but keeps the multiset of leaves |
| FileTree.ViewerTreeFacts | src/app/examples/example-viewer.tsx:34-71 | the viewer's tree is sorted at every level and has one leaf per file |
| OutputNames.FixedNamesFlat | src/lib/markdown/index.ts:52-223 | no fixed output file name holds a slash, so each is the last segment of its path |
| Text.Trim | src/components/wizard/steps/step-review.tsx:52 | trimming gives the empty string exactly for blank input, and otherwise text that neither starts nor ends with white space, leaving already-trimmed text alone |
| Text.Lower | src/components/wizard/steps/step-project-identity.tsx:32 | lower-casing keeps the length and maps each character on its own, turning exactly the upper-case ASCII letters into lower-case ones |
| Text.Split | src/lib/export/file-tree.ts:12 | splitting on a character gives at least one piece and no piece holds the separator |
| Text.JoinSplit | src/lib/export/file-tree.ts:12 | joining the pieces of a split with the separator gives back the input |
| Text.LastSegment | src/data/examples.ts:20 | the last path segment holds no slash |
| Text.LastSegmentOfJoined | src/data/examples.ts:20 | the last segment of a directory plus a slash-free name is the name, and a slash-free name is its own last segment |
| Text.PadStart | src/lib/markdown/generate-features.ts:4 | padding leaves text of the width alone and otherwise fills up to the width with the pad character in front of the text |
| Text.NatToString | src/lib/markdown/generate-features.ts:4 | the decimal numeral of a number reads back as the number, has no leading zero, and has one, two or three digits below 10, 100 and 1000 |
| Text.LeadingZeros | src/lib/markdown/generate-features.ts:4 | zero padding does not change the number a numeral denotes |
| ExampleData.ClinicFlowConsistent | src/data/examples.ts:2681 | the ClinicFlow example advertises as many tasks as it ships task documents |
| ExampleData.LaunchPadConsistent | src/data/examples.ts:2697 | the LaunchPad example advertises as many tasks as it ships task documents |
| ExampleData.PulseApiConsistent | src/data/examples.ts:2713 | the PulseAPI example advertises as many tasks as it ships task documents |
| Slug.LeadingSpaceHyphenated | src/components/wizard/steps/step-project-identity.tsx:33 | the project rule turns a leading space into a hyphen before the edge hyphens are stripped |
| Slug.UnderscoreDropped | src/components/wizard/steps/step-features.tsx:66 | the feature rule deletes an underscore |
| Slug.UnderscoreHyphenated | src/components/wizard/steps/step-project-identity.tsx:33 | the project rule turns an underscore into a hyphen |

## Left out

- The renderers of `PRIME.md`, `PROJECT.md`, `CONTEXT-WINDOW-STARTERS.md`, `CLAUDE.md`, `.cursorrules` and the Copilot instructions are not part of this model. Their texts enter the assembler as an `External` record of rendered strings.
- The Next.js and general convention catalogs are not part of this model. They are a `Catalog` parameter; only the FastAPI catalog is concrete data.
- Generator.Render and Generator.GenerateAll carry no contract of their own. Every file-list property is proved for `Assembler.Assemble` with an arbitrary set of rendered documents, which covers `GenerateAll = Assemble ∘ Render`.
- Prompts.LayerList: states the fallback line and the first layer's bullet, not the full layer list. The per-layer bullets are stated by `Prompts.LayerItems`.
- Prompts.ConventionsPromptWith: states only that the conventions prompt opens with the shared prompt head. The decisions block is stated by `Prompts.DecisionsBlock`.
- Prompts.SchemaPromptWith: states only the shared prompt head. Its blocks are stated by `Prompts.NeedsBlock`, `Prompts.SketchBlock` and `Prompts.SchemaTablesExactly`.
- Prompts.SkeletonPromptWith: states only the skeleton prompt's head. Its lists are stated by `Prompts.LayerItems` and `Prompts.FeatureList`.
- Review.ProjectBanner: states only that a banner needs a PROJECT.md at the warning threshold. The exact show-and-colour rule is proved by `Review.BannerMatchesBadge`, for the first PROJECT.md in the list.
- FastapiConventions.ProjectStructureFacts: states that every generated text opens with `**`, not that it is a single line. The same holds for `ApiStyleFacts` and `ErrorHandlingFacts`.
- `localeCompare` is abstracted as a comparator parameter `leq`. The sorted-tree lemmas assume only that it is total, plus transitive for the name-order lemma.
- Lengths, `padStart` widths and slice indices count Unicode scalar values (Dafny's `char`), not UTF-16 code units as JavaScript does. The two differ only for characters outside the Basic Multilingual Plane, which count twice in JavaScript.
- `toLowerCase` is modelled on the ASCII letters only; every other character is left unchanged.
- Wizard.WalkVisitsApplicable: the walk with Next is bounded by 8 presses, enough to cross the nine-step table from step 1.
- The progress bar's mobile percentage is floating point and is not modelled.
- `highestStepReached ?? 1`: the field is a plain integer here, so the missing-field case of old saved states is not modelled.
- StepEdits.SetAt: requires a valid index, because the row editors only pass indices of rendered rows. JavaScript would extend the array for an index past the end. The same holds for `StepEdits.UpdateRow`.
- StepEdits.DragTasks and StepEdits.DragFeatures: require the dragged and target ids to be items of the list, because the drag library reports only those.
- Chat.RunBatch: requires one id per call. The ids stand in for `crypto.randomUUID()`.
- The chat's network round trips, the language model, its system prompt and the API route are not part of this model.
- Lookups in JavaScript objects by inherited prototype keys (a framework id such as `constructor`) are not modelled. Catalog and recommendation lookups are by listed keys only.
- JavaScript object key order is not modelled. Overrides are a map, and category groups are kept in first-appearance order by construction.
- The markdown bodies of the bundled examples are not modelled; only their paths, file helper and task counts are.
- Local-storage persistence, the debounced auto-save, the ZIP export, clipboard, toasts, drag-and-drop UI and all JSX rendering are I/O or presentation and are left out.
