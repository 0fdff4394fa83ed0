/** The search box of the learning pages (components/ui/Search.tsx): paths,
    their modules and concepts whose title or text contains the lower-cased
    query, in catalogue order, at most ten. */
module Search {
  import opened Common
  import opened LearningTypes

  const MaxResults: nat := 10
  const MinQuery: nat := 2
  const ConceptPreview: nat := 100

  datatype Kind = PathKind | ModuleKind | ConceptKind

  datatype SearchResult = SearchResult(kind: Kind, id: string, title: string, description: string, href: string)

  // ---------------------------------------------------------------------
  // The result shapes

  function PathEntry(path: LearningPath): (r: SearchResult)
    ensures r.kind == PathKind && r.id == path.id && r.title == path.title
    ensures r.href == "/marketplace/learn/" + path.id
  {
    SearchResult(PathKind, path.id, path.title, path.description, "/marketplace/learn/" + path.id)
  }

  function ModuleEntry(path: LearningPath, unit: Module): (r: SearchResult)
    ensures r.kind == ModuleKind && r.id == unit.id && r.description == unit.description
    ensures r.title == path.title + " - " + unit.title
    ensures r.href == "/marketplace/learn/" + path.id + "/" + unit.id
  {
    SearchResult(ModuleKind, unit.id, path.title + " - " + unit.title, unit.description,
      "/marketplace/learn/" + path.id + "/" + unit.id)
  }

  /** A concept's description is the first hundred characters of its
      explanation followed by an ellipsis. */
  function ConceptEntry(concept: Concept): (r: SearchResult)
    ensures r.kind == ConceptKind && r.id == concept.id && r.title == concept.title
    ensures |r.description| == (if |concept.simpleExplanation| < ConceptPreview then |concept.simpleExplanation| else ConceptPreview) + 3
    ensures StartsWith(concept.simpleExplanation, r.description[..|r.description| - 3])
    ensures r.description[|r.description| - 3..] == "..."
    ensures r.href == "/concepts/" + concept.id
  {
    var text := concept.simpleExplanation;
    var cut := if |text| < ConceptPreview then |text| else ConceptPreview;
    var description := text[..cut] + "...";
    assert description[..|description| - 3] == text[..cut];
    SearchResult(ConceptKind, concept.id, concept.title, description, "/concepts/" + concept.id)
  }

  // ---------------------------------------------------------------------
  // The full ordered list of hits

  predicate Hit(title: string, text: string, searchLower: string) {
    IncludesLower(title, searchLower) || IncludesLower(text, searchLower)
  }

  /** The hits among a path's modules, in module order. */
  function ModuleHits(path: LearningPath, modules: seq<Module>, q: string): seq<SearchResult> {
    if |modules| == 0 then []
    else
      var last := modules[|modules| - 1];
      ModuleHits(path, modules[..|modules| - 1], q) + (if Hit(last.title, last.description, q) then [ModuleEntry(path, last)] else [])
  }

  /** A path's own entry when it matches, then its matching modules, which
      are searched whether or not the path matched. */
  function PathHits(path: LearningPath, q: string): seq<SearchResult> {
    (if Hit(path.title, path.description, q) then [PathEntry(path)] else []) + ModuleHits(path, path.modules, q)
  }

  function PathsHits(paths: seq<LearningPath>, q: string): seq<SearchResult> {
    if |paths| == 0 then []
    else PathsHits(paths[..|paths| - 1], q) + PathHits(paths[|paths| - 1], q)
  }

  function ConceptHits(concepts: seq<Concept>, q: string): seq<SearchResult> {
    if |concepts| == 0 then []
    else
      var last := concepts[|concepts| - 1];
      ConceptHits(concepts[..|concepts| - 1], q) + (if Hit(last.title, last.simpleExplanation, q) then [ConceptEntry(last)] else [])
  }

  /** The module hits are exactly the entries of the matching modules. */
  lemma {:induction false} ModuleHitsMembers(path: LearningPath, modules: seq<Module>, q: string)
    ensures forall x :: x in ModuleHits(path, modules, q) <==>
      exists m :: m in modules && Hit(m.title, m.description, q) && x == ModuleEntry(path, m)
  {
    if |modules| > 0 {
      var last := modules[|modules| - 1];
      var front := modules[..|modules| - 1];
      ModuleHitsMembers(path, front, q);
      assert forall m :: m in modules <==> m in front || m == last;
    }
  }

  /** The path hits are exactly the entries of the matching paths and of
      the matching modules of every path. */
  lemma {:induction false} PathsHitsMembers(paths: seq<LearningPath>, q: string)
    ensures forall x :: x in PathsHits(paths, q) <==>
      || (exists p :: p in paths && Hit(p.title, p.description, q) && x == PathEntry(p))
      || (exists p, m :: p in paths && m in p.modules && Hit(m.title, m.description, q) && x == ModuleEntry(p, m))
  {
    if |paths| > 0 {
      var last := paths[|paths| - 1];
      var front := paths[..|paths| - 1];
      PathsHitsMembers(front, q);
      ModuleHitsMembers(last, last.modules, q);
      assert forall p :: p in paths <==> p in front || p == last;
    }
  }

  /** The concept hits are exactly the entries of the matching concepts. */
  lemma {:induction false} ConceptHitsMembers(concepts: seq<Concept>, q: string)
    ensures forall x :: x in ConceptHits(concepts, q) <==>
      exists c :: c in concepts && Hit(c.title, c.simpleExplanation, q) && x == ConceptEntry(c)
  {
    if |concepts| > 0 {
      var last := concepts[|concepts| - 1];
      var front := concepts[..|concepts| - 1];
      ConceptHitsMembers(front, q);
      assert forall c :: c in concepts <==> c in front || c == last;
    }
  }

  /** Every hit, paths (each with its modules) before concepts. */
  function AllHits(paths: seq<LearningPath>, concepts: seq<Concept>, q: string): seq<SearchResult> {
    PathsHits(paths, q) + ConceptHits(concepts, q)
  }

  /** The query is searched only when it is not blank and has at least two
      characters. */
  predicate Searchable(query: string) {
    Trim(query) != "" && |query| >= MinQuery
  }

  /** The results shown: the first ten hits of a searchable query. */
  function Results(query: string, paths: seq<LearningPath>, concepts: seq<Concept>): (r: seq<SearchResult>)
    ensures !Searchable(query) ==> r == []
    ensures |r| <= MaxResults
    ensures Searchable(query) ==> r <= AllHits(paths, concepts, ToLower(query))
    ensures Searchable(query) && |r| < MaxResults ==> r == AllHits(paths, concepts, ToLower(query))
  {
    if !Searchable(query) then []
    else FirstTen(AllHits(paths, concepts, ToLower(query)))
  }

  /** `slice(0, 10)`. */
  function FirstTen(all: seq<SearchResult>): (r: seq<SearchResult>)
    ensures |r| <= MaxResults && r <= all
    ensures |r| < MaxResults ==> r == all
  {
    all[..if |all| < MaxResults then |all| else MaxResults]
  }

  /** Every result is a hit of the lower-cased query, in one of the three
      shapes. */
  lemma ResultsAreHits(query: string, paths: seq<LearningPath>, concepts: seq<Concept>, x: SearchResult)
    requires x in Results(query, paths, concepts)
    ensures var q := ToLower(query);
      || (exists p :: p in paths && Hit(p.title, p.description, q) && x == PathEntry(p))
      || (exists p, m :: p in paths && m in p.modules && Hit(m.title, m.description, q) && x == ModuleEntry(p, m))
      || (exists c :: c in concepts && Hit(c.title, c.simpleExplanation, q) && x == ConceptEntry(c))
  {
    var q := ToLower(query);
    assert x in PathsHits(paths, q) + ConceptHits(concepts, q);
    if x in PathsHits(paths, q) {
      PathsHitsMembers(paths, q);
    } else {
      ConceptHitsMembers(concepts, q);
    }
  }

  /** One more module or concept adds its entry when it matches. */
  lemma ModuleHitsStep(path: LearningPath, j: nat, q: string)
    requires j < |path.modules|
    ensures var m := path.modules[j];
      ModuleHits(path, path.modules[..j + 1], q) ==
        ModuleHits(path, path.modules[..j], q) + (if Hit(m.title, m.description, q) then [ModuleEntry(path, m)] else [])
  {
    assert path.modules[..j + 1][..j] == path.modules[..j];
  }

  lemma ConceptHitsStep(concepts: seq<Concept>, k: nat, q: string)
    requires k < |concepts|
    ensures var c := concepts[k];
      ConceptHits(concepts[..k + 1], q) ==
        ConceptHits(concepts[..k], q) + (if Hit(c.title, c.simpleExplanation, q) then [ConceptEntry(c)] else [])
  {
    assert concepts[..k + 1][..k] == concepts[..k];
  }

  lemma PathsHitsStep(paths: seq<LearningPath>, i: nat, q: string)
    requires i < |paths|
    ensures PathsHits(paths[..i + 1], q) == PathsHits(paths[..i], q) + PathHits(paths[i], q)
  {
    assert paths[..i + 1][..i] == paths[..i];
  }

  // ---------------------------------------------------------------------
  // The computation as written

  /** The inner loop: the matching modules of one path are pushed in order. */
  method PushModuleHits(before: seq<SearchResult>, path: LearningPath, searchLower: string) returns (all: seq<SearchResult>)
    ensures all == before + ModuleHits(path, path.modules, searchLower)
  {
    all := before;
    var j := 0;
    assert path.modules[..0] == [];
    while j < |path.modules|
      invariant 0 <= j <= |path.modules|
      invariant all == before + ModuleHits(path, path.modules[..j], searchLower)
    {
      var unit := path.modules[j];
      ModuleHitsStep(path, j, searchLower);
      ghost var prev := ModuleHits(path, path.modules[..j], searchLower);
      if Hit(unit.title, unit.description, searchLower) {
        all := all + [ModuleEntry(path, unit)];
        assert all == before + (prev + [ModuleEntry(path, unit)]);
      } else {
        assert prev + [] == prev;
      }
      j := j + 1;
    }
    assert path.modules[..j] == path.modules;
  }

  /** One turn of the outer loop: the path's entry when it matches, then its modules. */
  method PushPathHits(before: seq<SearchResult>, path: LearningPath, searchLower: string) returns (all: seq<SearchResult>)
    ensures all == before + PathHits(path, searchLower)
  {
    all := before;
    if Hit(path.title, path.description, searchLower) {
      all := all + [PathEntry(path)];
    }
    all := PushModuleHits(all, path, searchLower);
  }

  /** The outer loop over the paths. */
  method CollectPathHits(paths: seq<LearningPath>, searchLower: string) returns (all: seq<SearchResult>)
    ensures all == PathsHits(paths, searchLower)
  {
    all := [];
    var i := 0;
    assert paths[..0] == [];
    while i < |paths|
      invariant 0 <= i <= |paths|
      invariant all == PathsHits(paths[..i], searchLower)
    {
      all := PushPathHits(all, paths[i], searchLower);
      PathsHitsStep(paths, i, searchLower);
      i := i + 1;
    }
    assert paths[..i] == paths;
  }

  /** The loop over the concepts, pushing after the path hits. */
  method PushConceptHits(before: seq<SearchResult>, concepts: seq<Concept>, searchLower: string) returns (all: seq<SearchResult>)
    ensures all == before + ConceptHits(concepts, searchLower)
  {
    all := before;
    var k := 0;
    assert concepts[..0] == [];
    while k < |concepts|
      invariant 0 <= k <= |concepts|
      invariant all == before + ConceptHits(concepts[..k], searchLower)
    {
      var concept := concepts[k];
      ConceptHitsStep(concepts, k, searchLower);
      ghost var prev := ConceptHits(concepts[..k], searchLower);
      if Hit(concept.title, concept.simpleExplanation, searchLower) {
        all := all + [ConceptEntry(concept)];
        assert all == before + (prev + [ConceptEntry(concept)]);
      } else {
        assert prev + [] == prev;
      }
      k := k + 1;
    }
    assert concepts[..k] == concepts;
  }

  /** The `results` memo: nested loops push the hits, then the first ten
      are kept. */
  method ComputeResults(query: string, paths: seq<LearningPath>, concepts: seq<Concept>) returns (results: seq<SearchResult>)
    ensures results == Results(query, paths, concepts)
  {
    if Trim(query) == "" || |query| < MinQuery {
      return [];
    }
    var searchLower := ToLower(query);
    var all := CollectPathHits(paths, searchLower);
    all := PushConceptHits(all, concepts, searchLower);
    results := FirstTen(all);
  }

  // ---------------------------------------------------------------------
  // The box

  class SearchBox {
    var query: string
    var isOpen: bool
    var showResults: bool

    /** Results are only ever shown for a query of two or more characters. */
    ghost predicate Valid()
      reads this
    {
      showResults ==> |query| >= MinQuery
    }

    constructor()
      ensures Valid() && query == "" && !isOpen && !showResults
    {
      query, isOpen, showResults := "", false, false;
    }

    /** handleChange. */
    method HandleChange(value: string)
      modifies this`query, this`showResults
      ensures Valid()
      ensures query == value && (showResults <==> |value| >= MinQuery)
    {
      query := value;
      showResults := |value| >= MinQuery;
    }

    /** handleFocus: opening also shows the results of a long enough query. */
    method HandleFocus()
      requires Valid()
      modifies this`isOpen, this`showResults
      ensures Valid() && isOpen
      ensures showResults == (old(showResults) || |query| >= MinQuery)
    {
      isOpen := true;
      if |query| >= MinQuery {
        showResults := true;
      }
    }

    /** The blur timer closes the box. */
    method HandleBlur()
      modifies this`isOpen
      ensures !isOpen
    {
      isOpen := false;
    }

    /** The results panel: shown open with results, or the no-results note. */
    predicate ListShown(paths: seq<LearningPath>, concepts: seq<Concept>)
      reads this
    {
      isOpen && showResults && |Results(query, paths, concepts)| > 0
    }

    predicate NothingFoundShown(paths: seq<LearningPath>, concepts: seq<Concept>)
      reads this
    {
      isOpen && showResults && |query| >= MinQuery && |Results(query, paths, concepts)| == 0
    }
  }

  /** The list and the no-results note are never shown together, and a
      shown list belongs to a searchable query. */
  lemma PanelsExclusive(box: SearchBox, paths: seq<LearningPath>, concepts: seq<Concept>)
    requires box.Valid()
    ensures !(box.ListShown(paths, concepts) && box.NothingFoundShown(paths, concepts))
    ensures box.ListShown(paths, concepts) ==> Searchable(box.query)
  {
  }
}
