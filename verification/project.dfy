/** The project state the wizard edits and the generator reads
    (types/project.ts), the generated-file record (types/export.ts), the
    convention catalog records (types/conventions.ts) and the constants of
    lib/constants.ts. */
module Project {
  import opened Wrappers

  datatype Meta = Meta(
    id: string,
    createdAt: string,
    updatedAt: string,
    currentStep: int,
    highestStepReached: int,
    version: int)

  datatype TechStack = TechStack(
    framework: string,
    styling: string,
    database: string,
    auth: string,
    deployment: string,
    componentLibrary: string,
    additional: seq<string>)

  datatype ProjectMode = New | Existing

  datatype Identity = Identity(
    name: string,
    slug: string,
    purpose: string,
    techStack: TechStack,
    projectMode: ProjectMode,
    existingFolderTree: string,
    existingSchema: string)

  datatype Layer = Layer(
    id: string,
    name: string,
    enabled: bool,
    notes: string,
    technologies: seq<string>)

  datatype Architecture = Architecture(appType: string, layers: seq<Layer>)

  datatype BrandColor = BrandColor(id: string, name: string, hex: string)

  datatype Fonts = Fonts(heading: string, body: string, mono: string)

  datatype Styling = Styling(
    colors: seq<BrandColor>,
    fonts: Fonts,
    componentLibrary: string,
    logoDataUrl: Option<string>,
    additionalNotes: string)

  /** `selectedOptionId: string | null` and `customAnswer: string | null`. */
  datatype Decision = Decision(
    questionId: string,
    selectedOptionId: Option<string>,
    customAnswer: Option<string>)

  datatype Conventions = Conventions(decisions: seq<Decision>, customConventions: string)

  datatype Approach = PlainEnglish | PasteSql | ImportCsv | Skip

  datatype Table = Table(id: string, name: string, description: string, columns: string)

  datatype Database = Database(
    approach: Approach,
    plainEnglishDescription: string,
    pastedSchema: string,
    tables: seq<Table>)

  datatype Feature = Feature(
    id: string,
    name: string,
    slug: string,
    description: string,
    businessRules: seq<string>,
    acceptanceCriteria: seq<string>,
    relatedTables: seq<string>,
    sortOrder: int)

  datatype TaskStatus = NotStarted | InProgress | Done | Blocked

  /** The wizard's task step creates tasks without `status` and `outOfScope`
      (the chat tool sets both), so the two fields may be absent. */
  datatype Task = Task(
    id: string,
    taskNumber: int,
    name: string,
    featureIds: seq<string>,
    definitionOfDone: string,
    fileBoundaries: string,
    outOfScope: Option<string>,
    status: Option<TaskStatus>,
    sortOrder: int)

  datatype Deployment = Deployment(enabled: bool, skeletonStructure: string, notes: string)

  datatype ProjectState = ProjectState(
    meta: Meta,
    identity: Identity,
    architecture: Architecture,
    styling: Styling,
    conventions: Conventions,
    database: Database,
    features: seq<Feature>,
    tasks: seq<Task>,
    markdownOverrides: map<string, string>,
    deployment: Deployment)

  datatype Category = Root | Docs | Features | Tasks | AiConfigs

  datatype GeneratedFile = GeneratedFile(
    path: string,
    filename: string,
    content: string,
    wordCount: int,
    category: Category)

  /** `caption` is the source's `label`, a reserved word here. */
  datatype ConventionOption = ConventionOption(
    id: string,
    caption: string,
    description: string,
    isRecommended: bool,
    generatedText: string)

  datatype ConventionQuestion = ConventionQuestion(
    id: string,
    category: string,
    question: string,
    description: string,
    options: seq<ConventionOption>,
    applicableTo: seq<string>,
    isRequired: bool)

  const PROJECT_MD_WORD_WARNING := 2500
  const PROJECT_MD_WORD_DANGER := 3000
  const MAX_FEATURES := 50
  const MAX_TASKS := 100

  datatype AppType = AppType(id: string, caption: string, description: string)

  const APP_TYPES: seq<AppType> := [
    AppType("web-app", "Web Application", "A full web app with frontend and potentially backend"),
    AppType("mobile-app", "Mobile App", "Native or cross-platform mobile application"),
    AppType("api", "API / Backend Only", "REST or GraphQL API without a frontend"),
    AppType("static-site", "Static Site", "Marketing site, blog, or documentation"),
    AppType("monorepo", "Monorepo", "Multiple packages in a single repository"),
    AppType("cli", "CLI Tool", "Command-line application"),
    AppType("library", "Library / Package", "Reusable code published as a package")
  ]

  /** The five ids `crypto.randomUUID` hands to the default colors. */
  datatype ColorIds = ColorIds(primary: string, secondary: string, accent: string, background: string, text: string)

  const DEFAULT_COLOR_NAMES: seq<string> := ["Primary", "Secondary", "Accent", "Background", "Text"]
  const DEFAULT_COLOR_HEXES: seq<string> := ["#18181B", "#F4F4F5", "#3B82F6", "#FFFFFF", "#09090B"]

  /** `createDefaultProjectState()`, with the clock reading `now` and the
      random ids passed in. */
  function DefaultState(now: string, projectId: string, colorIds: ColorIds): (s: ProjectState)
    ensures s.meta.currentStep == 1 && s.meta.highestStepReached == 1 && s.meta.version == 1
    ensures s.meta.id == projectId && s.meta.createdAt == now && s.meta.updatedAt == now
    ensures s.database.approach == Skip && s.database.tables == []
    ensures s.database.plainEnglishDescription == "" && s.database.pastedSchema == ""
    ensures s.features == [] && s.tasks == [] && s.conventions.decisions == []
    ensures s.markdownOverrides == map[]
    ensures |s.styling.colors| == 5
    ensures forall i | 0 <= i < 5 :: s.styling.colors[i].name == DEFAULT_COLOR_NAMES[i]
                                   && s.styling.colors[i].hex == DEFAULT_COLOR_HEXES[i]
    ensures s.architecture.layers == [] && s.architecture.appType == ""
    ensures !s.deployment.enabled && s.deployment.skeletonStructure == "" && s.deployment.notes == ""
    ensures EmptyStack(s.identity.techStack)
  {
    ProjectState(
      Meta(projectId, now, now, 1, 1, 1),
      Identity("", "", "", TechStack("", "", "", "", "", "", []), New, "", ""),
      Architecture("", []),
      Styling(
        [ BrandColor(colorIds.primary, "Primary", "#18181B"),
          BrandColor(colorIds.secondary, "Secondary", "#F4F4F5"),
          BrandColor(colorIds.accent, "Accent", "#3B82F6"),
          BrandColor(colorIds.background, "Background", "#FFFFFF"),
          BrandColor(colorIds.text, "Text", "#09090B") ],
        Fonts("", "", ""), "", None, ""),
      Conventions([], ""),
      Database(Skip, "", "", []),
      [], [], map[],
      Deployment(false, "", ""))
  }

  /** Every selection of the stack is "" and nothing additional is chosen. */
  predicate EmptyStack(t: TechStack) {
    t.framework == "" && t.styling == "" && t.database == "" && t.auth == ""
    && t.deployment == "" && t.componentLibrary == "" && t.additional == []
  }
}
