/** The technology option tables of the identity step and the label lookup
    used by the architecture, styling and prompt renderers
    (data/tech-stacks.ts). */
module TechStacks {
  import opened Wrappers

  /** `caption` is the source's `label`, a reserved word here. */
  datatype TechOption = TechOption(id: string, caption: string, description: string)

  datatype TechCategory = TechCategory(id: string, caption: string, options: seq<TechOption>)

  const FRAMEWORK_OPTIONS: seq<TechOption> := [
    TechOption("nextjs", "Next.js", "React framework with server-side rendering, API routes, and file-based routing"),
    TechOption("react-vite", "React + Vite", "Client-side React with fast Vite build tooling"),
    TechOption("python-fastapi", "Python + FastAPI", "High-performance Python API framework"),
    TechOption("python-django", "Python + Django", "Full-featured Python web framework"),
    TechOption("static", "Static Site", "HTML/CSS/JS site with optional static site generator"),
    TechOption("svelte", "SvelteKit", "Svelte framework with server-side rendering and routing"),
    TechOption("vue-nuxt", "Vue + Nuxt", "Vue framework with SSR and file-based routing"),
    TechOption("express", "Node.js + Express", "Minimal Node.js web framework for APIs"),
    TechOption("other", "Other", "A framework not listed here")
  ]

  const STYLING_OPTIONS: seq<TechOption> := [
    TechOption("tailwind", "Tailwind CSS", "Utility-first CSS framework"),
    TechOption("css-modules", "CSS Modules", "Scoped CSS files per component"),
    TechOption("styled-components", "Styled Components", "CSS-in-JS with tagged template literals"),
    TechOption("sass", "Sass/SCSS", "CSS preprocessor with nesting and variables"),
    TechOption("plain-css", "Plain CSS", "Standard CSS without preprocessors"),
    TechOption("none", "None / Backend only", "No frontend styling needed")
  ]

  const DATABASE_OPTIONS: seq<TechOption> := [
    TechOption("supabase", "Supabase", "Open-source Firebase alternative with Postgres"),
    TechOption("firebase", "Firebase", "Google's real-time database and backend platform"),
    TechOption("postgresql", "PostgreSQL", "Advanced open-source relational database"),
    TechOption("mysql", "MySQL", "Popular open-source relational database"),
    TechOption("mongodb", "MongoDB", "Document-based NoSQL database"),
    TechOption("sqlite", "SQLite", "Lightweight embedded database"),
    TechOption("prisma", "Prisma (ORM)", "TypeScript ORM — pair with a database above"),
    TechOption("drizzle", "Drizzle (ORM)", "Lightweight TypeScript ORM"),
    TechOption("none", "No Database", "This project doesn't need a database")
  ]

  const AUTH_OPTIONS: seq<TechOption> := [
    TechOption("supabase-auth", "Supabase Auth", "Built-in auth with Supabase"),
    TechOption("next-auth", "NextAuth.js / Auth.js", "Flexible authentication for Next.js"),
    TechOption("firebase-auth", "Firebase Auth", "Google's authentication service"),
    TechOption("clerk", "Clerk", "Drop-in user management and auth"),
    TechOption("custom", "Custom Auth", "Roll your own authentication"),
    TechOption("none", "No Auth", "No authentication needed")
  ]

  const DEPLOYMENT_OPTIONS: seq<TechOption> := [
    TechOption("vercel", "Vercel", "Optimized for Next.js, automatic deployments"),
    TechOption("netlify", "Netlify", "JAMstack hosting with CI/CD"),
    TechOption("railway", "Railway", "Simple cloud platform for apps and databases"),
    TechOption("render", "Render", "Cloud platform for web services"),
    TechOption("aws", "AWS", "Amazon Web Services"),
    TechOption("fly", "Fly.io", "Deploy app servers close to users globally"),
    TechOption("docker", "Docker / Self-hosted", "Container-based deployment"),
    TechOption("other", "Other", "A platform not listed here")
  ]

  const COMPONENT_LIBRARY_OPTIONS: seq<TechOption> := [
    TechOption("shadcn", "shadcn/ui", "Copy-paste Radix-based components with Tailwind"),
    TechOption("material-ui", "Material UI", "Google's Material Design component library"),
    TechOption("chakra", "Chakra UI", "Accessible component library for React"),
    TechOption("ant-design", "Ant Design", "Enterprise-level UI component library"),
    TechOption("headless-ui", "Headless UI", "Unstyled, accessible components"),
    TechOption("none", "None", "No component library — custom components only")
  ]

  const ALL_TECH_CATEGORIES: seq<TechCategory> := [
    TechCategory("framework", "Framework", FRAMEWORK_OPTIONS),
    TechCategory("styling", "Styling", STYLING_OPTIONS),
    TechCategory("database", "Database", DATABASE_OPTIONS),
    TechCategory("auth", "Authentication", AUTH_OPTIONS),
    TechCategory("deployment", "Deployment", DEPLOYMENT_OPTIONS),
    TechCategory("componentLibrary", "Component Library", COMPONENT_LIBRARY_OPTIONS)
  ]

  /** `categories.find((c) => c.id === id)`: the first category with the id. */
  function FindCategory(cats: seq<TechCategory>, id: string): (r: Option<TechCategory>)
    ensures r.None? <==> forall i | 0 <= i < |cats| :: cats[i].id != id
    ensures r.Some? ==> exists i | 0 <= i < |cats| :: cats[i] == r.value
                          && cats[i].id == id && forall j | 0 <= j < i :: cats[j].id != id
  {
    if cats == [] then None
    else if cats[0].id == id then Some(cats[0])
    else
      var r := FindCategory(cats[1..], id);
      assert r.Some? ==> (exists i | 0 <= i < |cats| :: cats[i] == r.value && cats[i].id == id && forall j | 0 <= j < i :: cats[j].id != id) by {
        if r.Some? {
          var k :| 0 <= k < |cats[1..]| && cats[1..][k] == r.value && cats[1..][k].id == id
                   && forall j | 0 <= j < k :: cats[1..][j].id != id;
          assert cats[k + 1] == r.value;
          assert forall j | 0 <= j < k + 1 :: cats[j].id != id by {
            forall j | 0 <= j < k + 1 ensures cats[j].id != id {
              if j > 0 { assert cats[j] == cats[1..][j - 1]; }
            }
          }
        }
      }
      r
  }

  /** `options.find((o) => o.id === id)`: the first option with the id. */
  function FindOption(opts: seq<TechOption>, id: string): (r: Option<TechOption>)
    ensures r.None? <==> forall i | 0 <= i < |opts| :: opts[i].id != id
    ensures r.Some? ==> exists i | 0 <= i < |opts| :: opts[i] == r.value
                          && opts[i].id == id && forall j | 0 <= j < i :: opts[j].id != id
  {
    if opts == [] then None
    else if opts[0].id == id then Some(opts[0])
    else
      var r := FindOption(opts[1..], id);
      assert r.Some? ==> (exists i | 0 <= i < |opts| :: opts[i] == r.value && opts[i].id == id && forall j | 0 <= j < i :: opts[j].id != id) by {
        if r.Some? {
          var k :| 0 <= k < |opts[1..]| && opts[1..][k] == r.value && opts[1..][k].id == id
                   && forall j | 0 <= j < k :: opts[1..][j].id != id;
          assert opts[k + 1] == r.value;
          assert forall j | 0 <= j < k + 1 :: opts[j].id != id by {
            forall j | 0 <= j < k + 1 ensures opts[j].id != id {
              if j > 0 { assert opts[j] == opts[1..][j - 1]; }
            }
          }
        }
      }
      r
  }

  /** `getTechLabel(categoryId, optionId)`: the option's label, or the option
      id itself when the category or the option is unknown. */
  function GetTechLabel(categoryId: string, optionId: string): (r: string)
    ensures r == optionId || exists c, o | c in ALL_TECH_CATEGORIES && o in c.options ::
              c.id == categoryId && o.id == optionId && o.caption == r
  {
    LabelIn(ALL_TECH_CATEGORIES, categoryId, optionId)
  }

  /** The lookup of `getTechLabel` over any category table. */
  function LabelIn(cats: seq<TechCategory>, categoryId: string, optionId: string): (r: string)
    ensures r == optionId || exists c, o | c in cats && o in c.options ::
              c.id == categoryId && o.id == optionId && o.caption == r
  {
    match FindCategory(cats, categoryId)
    case None => optionId
    case Some(c) =>
      match FindOption(c.options, optionId)
      case None => optionId
      case Some(o) => o.caption
  }

  /** An unknown category id gives back the option id. */
  lemma UnknownCategoryLabel(categoryId: string, optionId: string)
    requires forall i | 0 <= i < |ALL_TECH_CATEGORIES| :: ALL_TECH_CATEGORIES[i].id != categoryId
    ensures GetTechLabel(categoryId, optionId) == optionId
  {
  }

  /** An option id missing from a known category gives back the option id. */
  lemma UnknownOptionLabel(ci: nat, optionId: string)
    requires ci < |ALL_TECH_CATEGORIES|
    requires forall i | 0 <= i < |ALL_TECH_CATEGORIES[ci].options| ::
               ALL_TECH_CATEGORIES[ci].options[i].id != optionId
    ensures GetTechLabel(ALL_TECH_CATEGORIES[ci].id, optionId) == optionId
  {
    CategoryIdsUnique();
    LabelInMissing(ALL_TECH_CATEGORIES, ci, optionId);
  }

  /** With unique category ids, an option id missing from its category's
      list falls through to the option id. */
  lemma LabelInMissing(cats: seq<TechCategory>, ci: nat, optionId: string)
    requires ci < |cats| && UniqueCategoryIds(cats)
    requires forall i | 0 <= i < |cats[ci].options| :: cats[ci].options[i].id != optionId
    ensures LabelIn(cats, cats[ci].id, optionId) == optionId
  {
    var c := cats[ci];
    assert FindCategory(cats, c.id) == Some(c);
  }

  predicate UniqueOptionIds(opts: seq<TechOption>) {
    forall i, j | 0 <= i < j < |opts| :: opts[i].id != opts[j].id
  }

  /** The six category ids are distinct and in the fixed order. */
  lemma CategoryIdsUnique()
    ensures |ALL_TECH_CATEGORIES| == 6
    ensures forall i, j | 0 <= i < j < 6 :: ALL_TECH_CATEGORIES[i].id != ALL_TECH_CATEGORIES[j].id
    ensures ALL_TECH_CATEGORIES[0].id == "framework" && ALL_TECH_CATEGORIES[1].id == "styling"
    ensures ALL_TECH_CATEGORIES[2].id == "database" && ALL_TECH_CATEGORIES[3].id == "auth"
    ensures ALL_TECH_CATEGORIES[4].id == "deployment" && ALL_TECH_CATEGORIES[5].id == "componentLibrary"
  {
  }

  /** Option ids are unique within every category. */
  lemma OptionIdsUnique(ci: nat)
    requires ci < |ALL_TECH_CATEGORIES|
    ensures UniqueOptionIds(ALL_TECH_CATEGORIES[ci].options)
  {
    if ci == 0 { FrameworkIdsUnique(); }
    else if ci == 1 { StylingIdsUnique(); }
    else if ci == 2 { DatabaseIdsUnique(); }
    else if ci == 3 { AuthIdsUnique(); }
    else if ci == 4 { DeploymentIdsUnique(); }
    else { ComponentLibraryIdsUnique(); }
  }

  lemma FrameworkIdsUnique() ensures UniqueOptionIds(FRAMEWORK_OPTIONS) { }
  lemma StylingIdsUnique() ensures UniqueOptionIds(STYLING_OPTIONS) { }
  lemma DatabaseIdsUnique() ensures UniqueOptionIds(DATABASE_OPTIONS) { }
  lemma AuthIdsUnique() ensures UniqueOptionIds(AUTH_OPTIONS) { }
  lemma DeploymentIdsUnique() ensures UniqueOptionIds(DEPLOYMENT_OPTIONS) { }
  lemma ComponentLibraryIdsUnique() ensures UniqueOptionIds(COMPONENT_LIBRARY_OPTIONS) { }

  predicate UniqueCategoryIds(cats: seq<TechCategory>) {
    forall i, j | 0 <= i < j < |cats| :: cats[i].id != cats[j].id
  }

  /** Every listed option gets its own label. */
  lemma LabelOfListedOption(ci: nat, oi: nat)
    requires ci < |ALL_TECH_CATEGORIES| && oi < |ALL_TECH_CATEGORIES[ci].options|
    ensures GetTechLabel(ALL_TECH_CATEGORIES[ci].id, ALL_TECH_CATEGORIES[ci].options[oi].id)
            == ALL_TECH_CATEGORIES[ci].options[oi].caption
  {
    CategoryIdsUnique();
    OptionIdsUnique(ci);
    LabelInListed(ALL_TECH_CATEGORIES, ci, oi);
  }

  /** With unique ids, a listed option's lookup finds its own label. */
  lemma LabelInListed(cats: seq<TechCategory>, ci: nat, oi: nat)
    requires ci < |cats| && oi < |cats[ci].options|
    requires UniqueCategoryIds(cats) && UniqueOptionIds(cats[ci].options)
    ensures LabelIn(cats, cats[ci].id, cats[ci].options[oi].id) == cats[ci].options[oi].caption
  {
    var c := cats[ci];
    var o := c.options[oi];
    assert FindCategory(cats, c.id) == Some(c);
    assert FindOption(c.options, o.id) == Some(o);
  }
}
