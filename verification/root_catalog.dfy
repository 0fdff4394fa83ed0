/** The query engine of the main marketplace (lib/marketplace.ts): filters
    by category, free-text search, minimum rating and tags, then an
    optional stable sort. Prompts and skills are queried by the same code,
    so the engine is written once over any record with an item and a
    category. */
module RootCatalog {
  import opened Common
  import opened CatalogTypes

  /** A prompt of the main catalog; its type and category are one of
      "prompt-studio", "advisor" and "mcp". */
  datatype Prompt = Prompt(
    item: Item,
    promptType: string,
    category: string,
    chatbot: Option<string>,
    usageExamples: Option<seq<string>>,
    inputVariables: Option<seq<string>>,
    compatibility: Option<seq<string>>,
    longDescription: Option<string>)

  datatype Skill = Skill(
    item: Item,
    category: string,
    version: Option<string>,
    dependencies: Option<seq<string>>,
    skillContent: Option<string>)

  datatype Catalog = Catalog(prompts: seq<Prompt>, skills: seq<Skill>)

  datatype Filters = Filters(
    category: Option<string>,
    minRating: Option<real>,
    sortBy: Option<SortBy>,
    search: Option<string>,
    tags: Option<seq<string>>)

  function ItemOfPrompt(p: Prompt): Item { p.item }
  function CategoryOfPrompt(p: Prompt): string { p.category }
  function ItemOfSkill(s: Skill): Item { s.item }
  function CategoryOfSkill(s: Skill): string { s.category }

  predicate CategoryOk(category: string, wanted: Option<string>) {
    StringOn(wanted) ==> category == wanted.value
  }

  /** Every filter the options switch on accepts the record. */
  predicate Matches(item: Item, category: string, f: Filters) {
    CategoryOk(category, f.category) && SearchOk(item, f.search)
    && RatingOk(item, f.minRating) && TagsOk(item, f.tags)
  }

  function Matcher<T>(f: Filters, itemOf: T -> Item, categoryOf: T -> string): T -> bool {
    (x: T) => Matches(itemOf(x), categoryOf(x), f)
  }

  /** The records a query keeps, in catalog order. */
  function Select<T(!new)>(source: seq<T>, f: Filters, itemOf: T -> Item, categoryOf: T -> string): (r: seq<T>)
    ensures forall x :: x in r <==> x in source && Matches(itemOf(x), categoryOf(x), f)
    ensures multiset(r) <= multiset(source)
    ensures forall x :: multiset(r)[x] == if Matches(itemOf(x), categoryOf(x), f) then multiset(source)[x] else 0
  {
    forall x ensures multiset(Filter(source, Matcher(f, itemOf, categoryOf)))[x]
                     == if Matches(itemOf(x), categoryOf(x), f) then multiset(source)[x] else 0 {
      FilterCount(source, Matcher(f, itemOf, categoryOf), x);
    }
    Filter(source, Matcher(f, itemOf, categoryOf))
  }

  /** The selection keeps catalog order: a record added at the end of the
      catalog is, when accepted, the last one selected. */
  lemma SelectAppend<T(!new)>(source: seq<T>, x: T, f: Filters, itemOf: T -> Item, categoryOf: T -> string)
    ensures Select(source + [x], f, itemOf, categoryOf)
         == Select(source, f, itemOf, categoryOf) + (if Matches(itemOf(x), categoryOf(x), f) then [x] else [])
  {
    FilterAppend(source, x, Matcher(f, itemOf, categoryOf));
  }

  /** Options that switch every filter off keep the whole catalog. */
  lemma SelectNothingOn<T(!new)>(source: seq<T>, f: Filters, itemOf: T -> Item, categoryOf: T -> string)
    requires !StringOn(f.category) && !StringOn(f.search) && !RatingOn(f.minRating) && !ListOn(f.tags)
    ensures Select(source, f, itemOf, categoryOf) == source
  {
    FilterAll(source, Matcher(f, itemOf, categoryOf));
  }

  /** The filtering half of getPrompts and getSkills: each filter the
      options switch on narrows the working copy in turn. */
  method Narrowed<T(!new)>(source: seq<T>, f: Filters, itemOf: T -> Item, categoryOf: T -> string)
    returns (items: seq<T>)
    ensures items == Select(source, f, itemOf, categoryOf)
  {
    var byCategory := (x: T) => CategoryOk(categoryOf(x), f.category);
    items := Narrow(source, StringOn(f.category), byCategory);
    ghost var kept := byCategory;
    var bySearch := (x: T) => SearchOk(itemOf(x), f.search);
    items := Narrow(items, StringOn(f.search), bySearch);
    FilterFilter(source, kept, bySearch, Both(kept, bySearch));
    kept := Both(kept, bySearch);
    assert items == Filter(source, kept);
    var byRating := (x: T) => RatingOk(itemOf(x), f.minRating);
    items := Narrow(items, RatingOn(f.minRating), byRating);
    FilterFilter(source, kept, byRating, Both(kept, byRating));
    kept := Both(kept, byRating);
    assert items == Filter(source, kept);
    var byTags := (x: T) => TagsOk(itemOf(x), f.tags);
    items := Narrow(items, ListOn(f.tags), byTags);
    FilterFilter(source, kept, byTags, Both(kept, byTags));
    kept := Both(kept, byTags);
    assert items == Filter(source, kept);
    FilterExt(source, kept, Matcher(f, itemOf, categoryOf));
  }

  /** The shared body of getPrompts and getSkills: the narrowed working
      copy, then the sort. */
  method Query<T(!new)>(source: seq<T>, f: Filters, itemOf: T -> Item, categoryOf: T -> string)
    returns (result: seq<T>)
    ensures result == Arrange(Select(source, f, itemOf, categoryOf), f.sortBy, itemOf)
    ensures forall x :: x in result <==> x in source && Matches(itemOf(x), categoryOf(x), f)
    ensures multiset(result) <= multiset(source)
  {
    result := Narrowed(source, f, itemOf, categoryOf);
    if f.sortBy.Some? {
      result := SortItems(result, f.sortBy.value, itemOf);
    }
    SameElements(result, Select(source, f, itemOf, categoryOf));
  }

  /** getPrompts. */
  method GetPrompts(catalog: Catalog, f: Filters) returns (result: seq<Prompt>)
    ensures result == Arrange(Select(catalog.prompts, f, ItemOfPrompt, CategoryOfPrompt), f.sortBy, ItemOfPrompt)
    ensures forall p :: p in result <==> p in catalog.prompts && Matches(p.item, p.category, f)
  {
    result := Query(catalog.prompts, f, ItemOfPrompt, CategoryOfPrompt);
  }

  /** getSkills. */
  method GetSkills(catalog: Catalog, f: Filters) returns (result: seq<Skill>)
    ensures result == Arrange(Select(catalog.skills, f, ItemOfSkill, CategoryOfSkill), f.sortBy, ItemOfSkill)
    ensures forall s :: s in result <==> s in catalog.skills && Matches(s.item, s.category, f)
  {
    result := Query(catalog.skills, f, ItemOfSkill, CategoryOfSkill);
  }

  /** getPromptById. */
  function GetPromptById(catalog: Catalog, id: string): (r: Option<Prompt>)
    ensures r.Some? ==> r.value in catalog.prompts && r.value.item.id == id
    ensures r.None? <==> forall p :: p in catalog.prompts ==> p.item.id != id
    ensures r.Some? ==> exists k :: (0 <= k < |catalog.prompts| && catalog.prompts[k] == r.value
      && forall j :: 0 <= j < k ==> catalog.prompts[j].item.id != id)
  {
    FindById(catalog.prompts, ItemOfPrompt, id)
  }

  /** getSkillById. */
  function GetSkillById(catalog: Catalog, id: string): (r: Option<Skill>)
    ensures r.Some? ==> r.value in catalog.skills && r.value.item.id == id
    ensures r.None? <==> forall s :: s in catalog.skills ==> s.item.id != id
    ensures r.Some? ==> exists k :: (0 <= k < |catalog.skills| && catalog.skills[k] == r.value
      && forall j :: 0 <= j < k ==> catalog.skills[j].item.id != id)
  {
    FindById(catalog.skills, ItemOfSkill, id)
  }
}
