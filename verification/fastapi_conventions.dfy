/** The FastAPI convention catalog (data/conventions/python-fastapi.ts).
    Each text is written as a concatenation of short literals, broken after
    a space; the verifier handles those far more cheaply than one long
    literal, and the concatenation is the same string. */
module FastapiConventions {
  import opened Text
  import opened Project
  import opened ConventionCatalog

  function Questions(): (r: seq<ConventionQuestion>)
    ensures |r| == 3
  {
    [ProjectStructure(), ApiStyle(), ErrorHandling()]
  }

  function ProjectStructure(): ConventionQuestion {
    ConventionQuestion(
      "project-structure",
      "Code "
      + "Organization",
      "How should the "
      + "project be "
      + "structured?",
      "Python projects "
      + "have several "
      + "common layout "
      + "patterns.",
      [
        ConventionOption(
          "domain-driven",
          "Domain-driven "
          + "(app/users/, "
          + "app/orders/)",
          "Organize by "
          + "business "
          + "domain. Each "
          + "domain has its "
          + "own models, "
          + "routes, and "
          + "services.",
          true,
          "**Project "
          + "Structure**: "
          + "Domain-driven "
          + "layout. Each "
          + "domain gets its "
          + "own package: "
          + "`app/users/`, "
          + "`app/orders/`, "
          + "`app/auth/`. "
          + "Each package "
          + "contains "
          + "`routes.py`, "
          + "`models.py`, "
          + "`schemas.py`, "
          + "`service.py`. "
          + "Shared "
          + "utilities go in "
          + "`app/core/`."),
        ConventionOption(
          "layer-based",
          "Layer-based "
          + "(routes/, "
          + "models/, "
          + "services/)",
          "Organize by "
          + "technical "
          + "layer. All "
          + "routes "
          + "together, all "
          + "models together.",
          false,
          "**Project "
          + "Structure**: "
          + "Layer-based "
          + "layout. "
          + "Top-level "
          + "directories by "
          + "layer: "
          + "`routes/`, "
          + "`models/`, "
          + "`schemas/`, "
          + "`services/`, "
          + "`core/`. Files "
          + "within each "
          + "layer are named "
          + "by domain: "
          + "`routes/users.py`, "
          + "`models/users.py`.")
      ],
      ["python-fastapi", "python-django"],
      true)
  }

  function ApiStyle(): ConventionQuestion {
    ConventionQuestion(
      "api-style",
      "API Design",
      "What API design "
      + "conventions "
      + "should be "
      + "followed?",
      "Consistent API "
      + "design makes "
      + "endpoints "
      + "predictable for "
      + "frontend "
      + "consumers.",
      [
        ConventionOption(
          "rest-resource",
          "RESTful "
          + "resource-based "
          + "routes",
          "Standard REST: "
          + "GET /users, "
          + "POST /users, "
          + "GET "
          + "/users/{id}. "
          + "The most common "
          + "and AI-friendly "
          + "pattern.",
          true,
          "**API Design**: "
          + "RESTful "
          + "resource-based "
          + "routing. Use "
          + "plural nouns "
          + "for resources: "
          + "`GET "
          + "/api/users`, "
          + "`POST "
          + "/api/users`, "
          + "`GET "
          + "/api/users/{id}`, "
          + "`PATCH "
          + "/api/users/{id}`. "
          + "Use HTTP status "
          + "codes correctly "
          + "(201 for "
          + "created, 404 "
          + "for not found). "
          + "Return "
          + "consistent "
          + "response shapes."),
        ConventionOption(
          "action-based",
          "Action-based "
          + "routes "
          + "(/users/create, "
          + "/users/list)",
          "RPC-style "
          + "routes named "
          + "after actions. "
          + "Less "
          + "conventional "
          + "but sometimes "
          + "clearer for "
          + "complex "
          + "operations.",
          false,
          "**API Design**: "
          + "Action-based "
          + "routing. Name "
          + "routes by their "
          + "action: `POST "
          + "/api/users/create`, "
          + "`GET "
          + "/api/users/list`, "
          + "`POST "
          + "/api/users/{id}/deactivate`. "
          + "Group related "
          + "actions under "
          + "their resource "
          + "prefix.")
      ],
      ["python-fastapi", "express"],
      true)
  }

  function ErrorHandling(): ConventionQuestion {
    ConventionQuestion(
      "python-error-handling",
      "Error Handling",
      "How should API "
      + "errors be "
      + "returned?",
      "Consistent "
      + "error responses "
      + "make debugging "
      + "easier for both "
      + "humans and AI.",
      [
        ConventionOption(
          "structured-errors",
          "Structured "
          + "error responses "
          + "with error codes",
          "Return JSON "
          + "with error "
          + "code, message, "
          + "and details. "
          + "Enables "
          + "programmatic "
          + "error handling "
          + "on the frontend.",
          true,
          "**Error "
          + "Handling**: "
          + "Return "
          + "structured "
          + "error "
          + "responses: "
          + "`{\"error\": "
          + "{\"code\": "
          + "\"USER_NOT_FOUND\", "
          + "\"message\": "
          + "\"User with ID "
          + "123 not "
          + "found\", "
          + "\"details\": "
          + "{}}}`. Use HTTP "
          + "exception "
          + "handlers in "
          + "FastAPI. Define "
          + "error codes as "
          + "an enum. Never "
          + "expose stack "
          + "traces in "
          + "production."),
        ConventionOption(
          "http-exceptions",
          "FastAPI "
          + "HTTPException "
          + "with detail "
          + "strings",
          "Use FastAPI's "
          + "built-in "
          + "HTTPException. "
          + "Simple but less "
          + "structured.",
          false,
          "**Error "
          + "Handling**: Use "
          + "FastAPI "
          + "`HTTPException` "
          + "for all error "
          + "responses. "
          + "Include "
          + "descriptive "
          + "`detail` "
          + "messages. Use "
          + "appropriate "
          + "HTTP status "
          + "codes. Add "
          + "custom "
          + "exception "
          + "handlers for "
          + "common error "
          + "types.")
      ],
      ["python-fastapi"],
      true)
  }

  function RecommendedCount(opts: seq<ConventionOption>): nat {
    if opts == [] then 0 else (if opts[0].isRecommended then 1 else 0) + RecommendedCount(opts[1..])
  }

  /** A generated text opens with a bold marker. */
  predicate BoldOpening(t: string) {
    StartsWith(t, "**")
  }

  /** What the catalog promises of each question: it is required, exactly one
      of its two options is recommended, and every generated text opens
      with a bold marker. */
  predicate WellFormedQuestion(q: ConventionQuestion) {
    && q.isRequired
    && |q.options| == 2
    && RecommendedCount(q.options) == 1
    && forall o | o in q.options :: BoldOpening(o.generatedText)
  }

  lemma TwoOptions(q: ConventionQuestion)
    requires q.isRequired && |q.options| == 2
    requires q.options[0].isRecommended && !q.options[1].isRecommended
    requires BoldOpening(q.options[0].generatedText) && BoldOpening(q.options[1].generatedText)
    ensures WellFormedQuestion(q)
  {
    assert q.options[1..][1..] == [];
    assert RecommendedCount(q.options[1..]) == 0;
  }

  lemma OpensBold(t: string)
    requires |t| >= 2 && t[0] == '*' && t[1] == '*'
    ensures BoldOpening(t)
  {
    assert t[..2] == "**";
  }

  lemma ProjectStructureFacts()
    ensures WellFormedQuestion(ProjectStructure())
  {
    var q := ProjectStructure();
    OpensBold(q.options[0].generatedText);
    OpensBold(q.options[1].generatedText);
    TwoOptions(q);
  }

  lemma ApiStyleFacts()
    ensures WellFormedQuestion(ApiStyle())
  {
    var q := ApiStyle();
    OpensBold(q.options[0].generatedText);
    OpensBold(q.options[1].generatedText);
    TwoOptions(q);
  }

  lemma ErrorHandlingFacts()
    ensures WellFormedQuestion(ErrorHandling())
  {
    var q := ErrorHandling();
    OpensBold(q.options[0].generatedText);
    OpensBold(q.options[1].generatedText);
    TwoOptions(q);
  }

  /** The ids and `applicableTo` lists the per-framework merge relies on:
      project-structure also serves Django, api-style also serves Express,
      and error handling is FastAPI-only. */
  lemma CatalogShape()
    ensures FastapiShape(Questions())
  {
    assert ProjectStructure().applicableTo == ["python-fastapi", "python-django"];
    assert ApiStyle().applicableTo == ["python-fastapi", "express"];
    assert ErrorHandling().applicableTo == ["python-fastapi"];
  }
}
