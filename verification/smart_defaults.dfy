/** The architecture seeded from the chosen framework (data/smart-defaults.ts). */
module SmartDefaults {
  import opened Project

  const DEFAULT_LAYERS: seq<Layer> := [
    Layer("frontend", "Frontend", true, "", []),
    Layer("backend", "Backend / API", false, "", []),
    Layer("database", "Database", false, "", []),
    Layer("auth", "Authentication", false, "", []),
    Layer("external", "External Services", false, "", []),
    Layer("storage", "File Storage", false, "", []),
    Layer("realtime", "Real-time / WebSockets", false, "", [])
  ]

  datatype Defaults = Defaults(
    appType: string,
    layers: seq<Layer>,
    suggestedFeatures: seq<string>,
    conventionRecommendations: map<string, string>)

  /** `[a, b].filter(Boolean)` for two strings. */
  function NonEmptyOf(a: string, b: string): (r: seq<string>)
    ensures forall x | x in r :: x != ""
    ensures a != "" && b != "" ==> r == [a, b]
  {
    (if a != "" then [a] else []) + (if b != "" then [b] else [])
  }

  /** The per-layer rewrite of the `DEFAULT_LAYERS.map` callback in each branch. */
  function AdjustLayer(ts: TechStack, l: Layer): (r: Layer)
    ensures r.id == l.id && r.name == l.name
  {
    match ts.framework
    case "nextjs" =>
      if l.id == "frontend" then
        l.(enabled := true, technologies := NonEmptyOf("Next.js", if ts.styling == "tailwind" then "Tailwind CSS" else ""))
      else if l.id == "backend" then
        l.(enabled := true, notes := "Next.js API routes / Server Actions", technologies := ["Next.js Route Handlers"])
      else if l.id == "database" && ts.database != "none" then l.(enabled := true, technologies := [ts.database])
      else if l.id == "auth" && ts.auth != "none" then l.(enabled := true, technologies := [ts.auth])
      else l
    case "react-vite" =>
      if l.id == "frontend" then l.(enabled := true, technologies := ["React", "Vite"])
      else if l.id == "database" && ts.database != "none" then l.(enabled := true)
      else if l.id == "auth" && ts.auth != "none" then l.(enabled := true)
      else l
    case "python-fastapi" =>
      if l.id == "frontend" then l.(enabled := false)
      else if l.id == "backend" then l.(enabled := true, technologies := ["FastAPI", "Python"])
      else if l.id == "database" && ts.database != "none" then l.(enabled := true)
      else if l.id == "auth" && ts.auth != "none" then l.(enabled := true)
      else l
    case "static" =>
      if l.id == "frontend" then l.(enabled := true, technologies := ["HTML", "CSS", "JavaScript"])
      else l.(enabled := false)
    case _ => l
  }

  function AppTypeFor(framework: string): string {
    match framework
    case "python-fastapi" => "api"
    case "static" => "static-site"
    case _ => "web-app"
  }

  function SuggestedFeatures(framework: string): seq<string> {
    match framework
    case "nextjs" => ["Authentication & user management", "Dashboard / home page", "Settings page", "CRUD operations"]
    case "react-vite" => ["Authentication", "Dashboard", "Settings"]
    case "python-fastapi" => ["User API endpoints", "Authentication", "CRUD endpoints", "Health check & monitoring"]
    case "static" => ["Landing page", "About page", "Contact form"]
    case _ => []
  }

  function Recommendations(framework: string): map<string, string> {
    match framework
    case "nextjs" =>
      map["component-organization" := "by-feature", "data-fetching" := "server-components",
          "error-handling" := "error-objects", "state-management" := "react-context"]
    case "react-vite" =>
      map["component-organization" := "by-feature", "data-fetching" := "client-hooks",
          "error-handling" := "error-objects"]
    case "python-fastapi" => map["error-handling" := "error-objects"]
    case _ => map[]
  }

  /** `getSmartDefaults(techStack)`: every branch keeps the seven default
      layers, their ids and names, in order. */
  function GetSmartDefaults(ts: TechStack): (d: Defaults)
    ensures |d.layers| == |DEFAULT_LAYERS|
    ensures forall i | 0 <= i < |d.layers| ::
              d.layers[i].id == DEFAULT_LAYERS[i].id && d.layers[i].name == DEFAULT_LAYERS[i].name
  {
    Defaults(
      AppTypeFor(ts.framework),
      seq(|DEFAULT_LAYERS|, i requires 0 <= i < |DEFAULT_LAYERS| => AdjustLayer(ts, DEFAULT_LAYERS[i])),
      SuggestedFeatures(ts.framework),
      Recommendations(ts.framework))
  }

  /** Next.js: frontend and backend on; the database and auth layers are on
      unless "none" is chosen (an empty choice turns them on); Tailwind is
      listed only when chosen. */
  lemma NextjsDefaults(ts: TechStack)
    requires ts.framework == "nextjs"
    ensures var d := GetSmartDefaults(ts);
      && d.appType == "web-app"
      && d.layers[0].enabled && d.layers[1].enabled
      && (d.layers[2].enabled <==> ts.database != "none")
      && (d.layers[3].enabled <==> ts.auth != "none")
      && d.layers[0].technologies == (if ts.styling == "tailwind" then ["Next.js", "Tailwind CSS"] else ["Next.js"])
      && d.layers[4..] == DEFAULT_LAYERS[4..]
  {
    var d := GetSmartDefaults(ts);
    assert d.layers[4..] == DEFAULT_LAYERS[4..] by {
      forall i | 4 <= i < 7 ensures d.layers[i] == DEFAULT_LAYERS[i] {
      }
    }
  }

  /** React with Vite: a web app whose frontend lists React and Vite; the
      backend keeps its default, and the database and auth layers follow
      the same "none" rule as for Next.js. */
  lemma ReactViteDefaults(ts: TechStack)
    requires ts.framework == "react-vite"
    ensures var d := GetSmartDefaults(ts);
      && d.appType == "web-app"
      && d.layers[0].enabled && d.layers[0].technologies == ["React", "Vite"]
      && d.layers[1] == DEFAULT_LAYERS[1]
      && (d.layers[2].enabled <==> ts.database != "none")
      && (d.layers[3].enabled <==> ts.auth != "none")
      && d.layers[4..] == DEFAULT_LAYERS[4..]
  {
    var d := GetSmartDefaults(ts);
    assert d.layers[4..] == DEFAULT_LAYERS[4..] by {
      forall i | 4 <= i < 7 ensures d.layers[i] == DEFAULT_LAYERS[i] {
      }
    }
  }

  /** FastAPI: an API app with the frontend off and the backend on; the
      layers after auth keep their defaults. */
  lemma FastapiDefaults(ts: TechStack)
    requires ts.framework == "python-fastapi"
    ensures var d := GetSmartDefaults(ts);
      && d.appType == "api"
      && !d.layers[0].enabled && d.layers[1].enabled
      && d.layers[1].technologies == ["FastAPI", "Python"]
      && (d.layers[2].enabled <==> ts.database != "none")
      && (d.layers[3].enabled <==> ts.auth != "none")
      && d.layers[4..] == DEFAULT_LAYERS[4..]
  {
    var d := GetSmartDefaults(ts);
    assert d.layers[4..] == DEFAULT_LAYERS[4..] by {
      forall i | 4 <= i < 7 ensures d.layers[i] == DEFAULT_LAYERS[i] {
      }
    }
  }

  /** A static site: only the frontend is on, and nothing is recommended. */
  lemma StaticDefaults(ts: TechStack)
    requires ts.framework == "static"
    ensures var d := GetSmartDefaults(ts);
      && d.appType == "static-site"
      && (forall i | 0 <= i < |d.layers| :: d.layers[i].enabled <==> i == 0)
      && d.conventionRecommendations == map[]
  {
  }

  /** An unlisted framework gets the defaults unchanged and no suggestions. */
  lemma UnknownFrameworkDefaults(ts: TechStack)
    requires ts.framework !in {"nextjs", "react-vite", "python-fastapi", "static"}
    ensures GetSmartDefaults(ts) == Defaults("web-app", DEFAULT_LAYERS, [], map[])
  {
    var d := GetSmartDefaults(ts);
    assert d.layers == DEFAULT_LAYERS;
  }
}
