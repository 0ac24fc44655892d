/** The convention catalogs and their per-framework merge
    (data/conventions/index.ts, data/conventions/python-fastapi.ts). */
module ConventionCatalog {
  import opened Wrappers
  import opened Text
  import opened Project

  /** The three catalogs the merge reads. The FastAPI catalog is the data of
      `FastapiConventions.Questions()`; the Next.js and general catalogs are
      not part of this model and stay parameters. */
  datatype Catalog = Catalog(
    nextjs: seq<ConventionQuestion>,
    fastapi: seq<ConventionQuestion>,
    general: seq<ConventionQuestion>)

  /** The ids a question list uses (`new Set(qs.map((q) => q.id))`). */
  function Ids(qs: seq<ConventionQuestion>): set<string> {
    set q | q in qs :: q.id
  }

  /** `qs.filter((q) => q.applicableTo.includes(fw))` */
  function FilterApplicable(qs: seq<ConventionQuestion>, fw: string): (r: seq<ConventionQuestion>)
    ensures |r| <= |qs|
    ensures forall q :: q in r <==> q in qs && fw in q.applicableTo
  {
    if qs == [] then []
    else if fw in qs[0].applicableTo then [qs[0]] + FilterApplicable(qs[1..], fw)
    else FilterApplicable(qs[1..], fw)
  }

  /** `qs.filter((q) => !seen.has(q.id))` */
  function DropIds(qs: seq<ConventionQuestion>, seen: set<string>): (r: seq<ConventionQuestion>)
    ensures |r| <= |qs|
    ensures forall q :: q in r <==> q in qs && q.id !in seen
  {
    if qs == [] then []
    else if qs[0].id !in seen then [qs[0]] + DropIds(qs[1..], seen)
    else DropIds(qs[1..], seen)
  }

  /** Filtering keeps the relative order: it distributes over concatenation. */
  lemma {:induction false} FilterApplicableAppend(a: seq<ConventionQuestion>, b: seq<ConventionQuestion>, fw: string)
    ensures FilterApplicable(a + b, fw) == FilterApplicable(a, fw) + FilterApplicable(b, fw)
  {
    if a != [] {
      var ab := a + b;
      assert ab[0] == a[0] && ab[1..] == a[1..] + b;
      FilterApplicableAppend(a[1..], b, fw);
      var head := if fw in a[0].applicableTo then [a[0]] else [];
      assert FilterApplicable(ab, fw) == head + FilterApplicable(ab[1..], fw);
      assert FilterApplicable(a, fw) == head + FilterApplicable(a[1..], fw);
    } else {
      assert a + b == b;
    }
  }

  lemma {:induction false} DropIdsAppend(a: seq<ConventionQuestion>, b: seq<ConventionQuestion>, seen: set<string>)
    ensures DropIds(a + b, seen) == DropIds(a, seen) + DropIds(b, seen)
  {
    if a != [] {
      var q, rest := a[0], a[1..];
      assert a == [q] + rest && a + b == [q] + (rest + b);
      DropIdsAppend(rest, b, seen);
      DropIdsCons(q, rest, seen);
      DropIdsCons(q, rest + b, seen);
    } else {
      assert a + b == b;
    }
  }

  lemma DropIdsCons(q: ConventionQuestion, qs: seq<ConventionQuestion>, seen: set<string>)
    ensures DropIds([q] + qs, seen) == (if q.id !in seen then [q] else []) + DropIds(qs, seen)
  {
    assert ([q] + qs)[1..] == qs;
  }

  /** `conventionsByFramework[fw]`: None for a framework without a list. */
  function ConventionsByFramework(cat: Catalog, fw: string): (r: Option<seq<ConventionQuestion>>)
    ensures r.Some? <==> fw in {"nextjs", "react-vite", "python-fastapi", "python-django", "express"}
    ensures fw == "react-vite" ==> r == Some(FilterApplicable(cat.nextjs, "react-vite"))
    ensures fw == "python-django" ==> r == Some(FilterApplicable(cat.fastapi, "python-django"))
    ensures fw == "express" ==> r == Some(FilterApplicable(cat.nextjs + cat.fastapi, "express"))
  {
    if fw == "nextjs" then Some(cat.nextjs)
    else if fw == "react-vite" then Some(FilterApplicable(cat.nextjs, "react-vite"))
    else if fw == "python-fastapi" then Some(cat.fastapi)
    else if fw == "python-django" then Some(FilterApplicable(cat.fastapi, "python-django"))
    else if fw == "express" then
      FilterApplicableAppend(cat.nextjs, cat.fastapi, "express");
      Some(FilterApplicable(cat.nextjs, "express") + FilterApplicable(cat.fastapi, "express"))
    else None
  }

  /** `getConventionsForStack(fw)`: the framework's own list, then the general
      questions for the framework whose ids the own list does not already use. */
  function ConventionsForStack(cat: Catalog, fw: string): (r: seq<ConventionQuestion>)
    ensures var own := ConventionsByFramework(cat, fw).GetOr([]);
      && |own| <= |r|
      && r[..|own|] == own
      && forall q :: q in r[|own|..] <==> q in cat.general && fw in q.applicableTo && q.id !in Ids(own)
    ensures var own := ConventionsByFramework(cat, fw).GetOr([]);
      r[|own|..] == DropIds(FilterApplicable(cat.general, fw), Ids(own))
  {
    var own := ConventionsByFramework(cat, fw).GetOr([]);
    var general := FilterApplicable(cat.general, fw);
    var r := own + DropIds(general, Ids(own));
    assert r[..|own|] == own;
    assert r[|own|..] == DropIds(general, Ids(own));
    r
  }

  /** The stack list has no general question that repeats an id of the
      framework's own list; with a duplicate-free own list, ids are unique. */
  lemma StackListUniqueIds(cat: Catalog, fw: string)
    requires UniqueIds(ConventionsByFramework(cat, fw).GetOr([]))
    requires UniqueIds(cat.general)
    ensures UniqueIds(ConventionsForStack(cat, fw))
  {
    var own := ConventionsByFramework(cat, fw).GetOr([]);
    var tail := DropIds(FilterApplicable(cat.general, fw), Ids(own));
    FilterKeepsUnique(cat.general, fw);
    DropKeepsUnique(FilterApplicable(cat.general, fw), Ids(own));
    assert ConventionsForStack(cat, fw) == own + tail;
    AppendUnique(own, tail);
  }

  /** Two duplicate-free lists with disjoint ids concatenate to one. */
  lemma AppendUnique(a: seq<ConventionQuestion>, b: seq<ConventionQuestion>)
    requires UniqueIds(a) && UniqueIds(b)
    requires forall q | q in b :: q.id !in Ids(a)
    ensures UniqueIds(a + b)
  {
    var r := a + b;
    forall i, j | 0 <= i < j < |r| ensures r[i].id != r[j].id {
      if i < |a| && j >= |a| {
        assert r[i] == a[i] && r[j] == b[j - |a|];
        assert b[j - |a|] in b;
      } else if i >= |a| {
        assert r[i] == b[i - |a|] && r[j] == b[j - |a|];
      }
    }
  }

  predicate UniqueIds(qs: seq<ConventionQuestion>) {
    forall i, j | 0 <= i < j < |qs| :: qs[i].id != qs[j].id
  }

  lemma {:induction false} FilterKeepsUnique(qs: seq<ConventionQuestion>, fw: string)
    requires UniqueIds(qs)
    ensures UniqueIds(FilterApplicable(qs, fw))
  {
    if qs != [] {
      FilterKeepsUnique(qs[1..], fw);
      var rest := FilterApplicable(qs[1..], fw);
      if fw in qs[0].applicableTo {
        var r := [qs[0]] + rest;
        forall j | 0 < j < |r| ensures r[0].id != r[j].id {
          assert r[j] == rest[j - 1] && r[j] in qs[1..];
        }
        forall i, j | 0 < i < j < |r| ensures r[i].id != r[j].id {
          assert r[i] == rest[i - 1] && r[j] == rest[j - 1];
        }
      }
    }
  }

  lemma {:induction false} DropKeepsUnique(qs: seq<ConventionQuestion>, seen: set<string>)
    requires UniqueIds(qs)
    ensures UniqueIds(DropIds(qs, seen))
  {
    if qs != [] {
      DropKeepsUnique(qs[1..], seen);
      var rest := DropIds(qs[1..], seen);
      if qs[0].id !in seen {
        var r := [qs[0]] + rest;
        forall j | 0 < j < |r| ensures r[0].id != r[j].id {
          assert r[j] == rest[j - 1] && r[j] in qs[1..];
        }
        forall i, j | 0 < i < j < |r| ensures r[i].id != r[j].id {
          assert r[i] == rest[i - 1] && r[j] == rest[j - 1];
        }
      }
    }
  }

  /** The `seen`-set filter of `getAllConventionQuestions`: keeps a question
      iff no earlier question (and nothing in `seen`) has its id. */
  function DedupFrom(qs: seq<ConventionQuestion>, seen: set<string>): (r: seq<ConventionQuestion>)
    ensures UniqueIds(r)
    ensures forall q | q in r :: q in qs && q.id !in seen
    ensures forall q | q in qs :: q.id in seen || q.id in Ids(r)
    decreases |qs|
  {
    if qs == [] then []
    else if qs[0].id in seen then DedupFrom(qs[1..], seen)
    else
      var rest := DedupFrom(qs[1..], seen + {qs[0].id});
      var r := [qs[0]] + rest;
      assert forall j | 0 < j < |r| :: r[j] == rest[j - 1];
      r
  }

  /** The question kept for an id is the first one carrying it. */
  lemma {:induction false} DedupKeepsFirst(qs: seq<ConventionQuestion>, seen: set<string>, k: nat)
    requires k < |qs| && qs[k].id !in seen
    requires forall j | 0 <= j < k :: qs[j].id != qs[k].id
    ensures qs[k] in DedupFrom(qs, seen)
    decreases k
  {
    if k > 0 {
      if qs[0].id in seen {
        DedupKeepsFirst(qs[1..], seen, k - 1);
      } else {
        DedupKeepsFirst(qs[1..], seen + {qs[0].id}, k - 1);
      }
    }
  }

  /** `getAllConventionQuestions()` */
  function AllConventionQuestions(cat: Catalog): (r: seq<ConventionQuestion>)
    ensures UniqueIds(r)
    ensures Ids(r) == Ids(cat.nextjs) + Ids(cat.fastapi) + Ids(cat.general)
    ensures forall q | q in r :: q in cat.nextjs || q in cat.fastapi || q in cat.general
  {
    var all := cat.nextjs + cat.fastapi + cat.general;
    DedupKeepsIds(all);
    IdsAppend(cat.nextjs, cat.fastapi);
    IdsAppend(cat.nextjs + cat.fastapi, cat.general);
    DedupFrom(all, {})
  }

  lemma IdsAppend(a: seq<ConventionQuestion>, b: seq<ConventionQuestion>)
    ensures Ids(a + b) == Ids(a) + Ids(b)
  {
    assert forall q :: q in a + b <==> q in a || q in b;
  }

  /** Dropping repeats keeps every id. */
  lemma DedupKeepsIds(qs: seq<ConventionQuestion>)
    ensures Ids(DedupFrom(qs, {})) == Ids(qs)
  {
    var r := DedupFrom(qs, {});
    forall id | id in Ids(r) ensures id in Ids(qs) {
      var q :| q in r && q.id == id;
      assert q in qs;
    }
    forall id | id in Ids(qs) ensures id in Ids(r) {
      var q :| q in qs && q.id == id;
    }
  }

  /** A Next.js question wins over a later question with the same id. */
  lemma NextjsQuestionsKept(cat: Catalog, k: nat)
    requires k < |cat.nextjs| && forall j | 0 <= j < k :: cat.nextjs[j].id != cat.nextjs[k].id
    ensures cat.nextjs[k] in AllConventionQuestions(cat)
  {
    var all := cat.nextjs + cat.fastapi + cat.general;
    assert all[k] == cat.nextjs[k];
    DedupKeepsFirst(all, {}, k);
  }

  /** Django gets only the project-structure question from the FastAPI list,
      and Express gets the api-style question after the Next.js ones. */
  lemma FastapiDerivedLists(cat: Catalog)
    requires FastapiShape(cat.fastapi)
    ensures ConventionsByFramework(cat, "python-django") == Some([cat.fastapi[0]])
    ensures ConventionsByFramework(cat, "express")
            == Some(FilterApplicable(cat.nextjs, "express") + [cat.fastapi[1]])
  {
    var f := cat.fastapi;
    assert f[1..][1..] == [f[2]] && [f[2]][1..] == [];
    assert f[1..][0] == f[1];
    assert FilterApplicable([f[2]], "python-django") == [];
    assert FilterApplicable([f[2]], "express") == [];
    assert "python-django" !in f[1].applicableTo && "python-django" !in f[2].applicableTo;
    assert "express" !in f[0].applicableTo && "express" !in f[2].applicableTo;
    assert FilterApplicable(f[1..], "python-django") == [];
    assert FilterApplicable(f, "python-django") == [f[0]];
    assert FilterApplicable(f[1..], "express") == [f[1]];
    assert FilterApplicable(f, "express") == [f[1]];
    FilterApplicableAppend(cat.nextjs, f, "express");
  }

  /** The ids and `applicableTo` lists of the FastAPI catalog, which are all
      the merge looks at. */
  predicate FastapiShape(f: seq<ConventionQuestion>) {
    && |f| == 3
    && f[0].id == "project-structure" && f[0].applicableTo == ["python-fastapi", "python-django"]
    && f[1].id == "api-style" && f[1].applicableTo == ["python-fastapi", "express"]
    && f[2].id == "python-error-handling" && f[2].applicableTo == ["python-fastapi"]
  }
}
