/** The catalog records of the marketplace (prompts, skills, their authors
    and ratings) and the filter predicates both query engines apply to the
    fields every item shares. */
module CatalogTypes {
  import opened Common

  datatype Author = Author(id: string, name: string, avatar: Option<string>)

  /** `average` is informational (0..5 in the data); only ever compared. */
  datatype Rating = Rating(average: real, count: int)

  /** The fields every prompt and skill has. Timestamps are instants in
      milliseconds (the parsed ISO-8601 strings of the data). */
  datatype Item = Item(
    id: string,
    title: string,
    description: string,
    content: string,
    author: Author,
    rating: Rating,
    downloads: int,
    tags: seq<string>,
    createdAt: int,
    updatedAt: int)

  datatype PromptFormat = General | PromptStudio | Mcp | SkillFormat

  datatype TargetPlatform = TextEnhance | PromptStudioPlatform | Advisor | McpPlatform | Claude | ChatGpt

  datatype ModelSettings = ModelSettings(
    temperature: Option<real>,
    topP: Option<real>,
    topK: Option<int>,
    maxTokens: Option<real>,
    presencePenalty: Option<real>,
    frequencyPenalty: Option<real>)

  /** A prompt of the learning-platform catalog. Business areas are the
      taxonomy's category ids, kept as strings. */
  datatype Prompt = Prompt(
    item: Item,
    format: PromptFormat,
    businessArea: string,
    targetPlatform: Option<TargetPlatform>,
    mcpTools: Option<seq<string>>,
    usageExamples: Option<seq<string>>,
    inputVariables: Option<seq<string>>,
    compatibility: Option<seq<string>>,
    longDescription: Option<string>,
    modelSettings: Option<ModelSettings>,
    netsuiteModules: Option<seq<string>>)

  /** A skill; its format is always "skill", so it is not stored. */
  datatype Skill = Skill(
    item: Item,
    businessArea: string,
    version: Option<string>,
    dependencies: Option<seq<string>>,
    skillContent: Option<string>,
    netsuiteModules: Option<seq<string>>,
    skillCapability: Option<string>)

  datatype MarketplaceData = MarketplaceData(prompts: seq<Prompt>, skills: seq<Skill>)

  datatype SortBy = Popularity | ByRating | Newest | Downloads

  datatype FilterOptions = FilterOptions(
    format: Option<PromptFormat>,
    businessArea: Option<string>,
    targetPlatform: Option<TargetPlatform>,
    minRating: Option<real>,
    sortBy: Option<SortBy>,
    search: Option<string>,
    tags: Option<seq<string>>,
    netsuiteModules: Option<seq<string>>)

  function PromptItem(p: Prompt): Item { p.item }

  function SkillItem(s: Skill): Item { s.item }

  // ---------------------------------------------------------------------
  // JavaScript truthiness of the optional filter fields

  predicate StringOn(v: Option<string>) { v.Some? && v.value != "" }

  /** `if (filters?.minRating)`: 0 switches the filter off. */
  predicate RatingOn(v: Option<real>) { v.Some? && v.value != 0.0 }

  /** `if (filters?.tags && filters.tags.length > 0)`. */
  predicate ListOn(v: Option<seq<string>>) { v.Some? && |v.value| > 0 }

  // ---------------------------------------------------------------------
  // Filters on the shared item fields; each accepts everything when off

  /** Case-insensitive substring match against title, description or any tag. */
  predicate SearchHit(item: Item, search: string) {
    var searchLower := ToLower(search);
    IncludesLower(item.title, searchLower)
    || IncludesLower(item.description, searchLower)
    || exists t :: t in item.tags && IncludesLower(t, searchLower)
  }

  predicate SearchOk(item: Item, search: Option<string>) {
    StringOn(search) ==> SearchHit(item, search.value)
  }

  predicate RatingOk(item: Item, minRating: Option<real>) {
    RatingOn(minRating) ==> item.rating.average >= minRating.value
  }

  /** `wanted.some((tag) => tags.includes(tag))`. */
  predicate SharesTag(tags: seq<string>, wanted: seq<string>) {
    exists t :: t in wanted && t in tags
  }

  predicate TagsOk(item: Item, tags: Option<seq<string>>) {
    ListOn(tags) ==> SharesTag(item.tags, tags.value)
  }

  /** The comparator of each sort policy, as a descending key. */
  function SortKey(sortBy: SortBy, item: Item): (r: Rank)
    ensures r.secondary == 0.0
    ensures sortBy == Popularity || sortBy == Downloads ==> r.primary == item.downloads as real
    ensures sortBy == ByRating ==> r.primary == item.rating.average
    ensures sortBy == Newest ==> r.primary == item.createdAt as real
  {
    match sortBy
    case Popularity => Rank(item.downloads as real, 0.0)
    case Downloads => Rank(item.downloads as real, 0.0)
    case ByRating => Rank(item.rating.average, 0.0)
    case Newest => Rank(item.createdAt as real, 0.0)
  }

  /** The comparator's key of an element under a policy. */
  function KeyOf<T>(sortBy: SortBy, itemOf: T -> Item): T -> Rank {
    (x: T) => SortKey(sortBy, itemOf(x))
  }

  /** Items sorted by a policy, best first. */
  function SortItems<T>(s: seq<T>, sortBy: SortBy, itemOf: T -> Item): (r: seq<T>)
    ensures multiset(r) == multiset(s)
    ensures forall i, j :: 0 <= i < j < |r| ==> RankGe(SortKey(sortBy, itemOf(r[i])), SortKey(sortBy, itemOf(r[j])))
  {
    var r := SortDesc(s, KeyOf(sortBy, itemOf));
    assert SortedDesc(r, KeyOf(sortBy, itemOf));
    r
  }

  /** The sort is stable: the elements of one key keep their order. */
  lemma SortItemsStable<T>(s: seq<T>, sortBy: SortBy, itemOf: T -> Item, q: Rank)
    ensures WithRank(SortItems(s, sortBy, itemOf), KeyOf(sortBy, itemOf), q) == WithRank(s, KeyOf(sortBy, itemOf), q)
  {
    SortDescStable(s, KeyOf(sortBy, itemOf), q);
  }

  /** An element appended before a stable sort comes after every element
      of its key. */
  lemma SortItemsAppendStable<T>(s: seq<T>, x: T, sortBy: SortBy, itemOf: T -> Item, q: Rank)
    ensures WithRank(SortItems(s + [x], sortBy, itemOf), KeyOf(sortBy, itemOf), q)
         == WithRank(s, KeyOf(sortBy, itemOf), q) + (if KeyOf(sortBy, itemOf)(x) == q then [x] else [])
  {
    var key := KeyOf(sortBy, itemOf);
    SortItemsStable(s + [x], sortBy, itemOf, q);
    WithRankAppend(s, [x], key, q);
    assert WithRank([x], key, q) == if key(x) == q then [x] else [];
  }

  /** Sorting by "popularity" and sorting by "downloads" give the same order. */
  lemma PopularityIsDownloads<T>(s: seq<T>, itemOf: T -> Item)
    ensures SortItems(s, Popularity, itemOf) == SortItems(s, Downloads, itemOf)
  {
    SortDescExt(s, (x: T) => SortKey(Popularity, itemOf(x)), (x: T) => SortKey(Downloads, itemOf(x)));
  }

  /** Two sort keys that agree everywhere sort alike. */
  lemma {:induction false} SortDescExt<T>(s: seq<T>, r1: T -> Rank, r2: T -> Rank)
    requires forall x :: r1(x) == r2(x)
    ensures SortDesc(s, r1) == SortDesc(s, r2)
  {
    if |s| > 0 {
      SortDescExt(s[..|s| - 1], r1, r2);
      InsertExt(s[|s| - 1], SortDesc(s[..|s| - 1], r1), r1, r2);
    }
  }

  lemma {:induction false} InsertExt<T>(x: T, s: seq<T>, r1: T -> Rank, r2: T -> Rank)
    requires forall y :: r1(y) == r2(y)
    requires SortedDesc(s, r1)
    ensures SortedDesc(s, r2) && Insert(x, s, r1) == Insert(x, s, r2)
  {
    if |s| > 0 {
      InsertExt(x, s[1..], r1, r2);
    }
  }

  /** The search filter ignores the case of the query. */
  lemma SearchIgnoresCase(item: Item, search: string)
    ensures SearchHit(item, search) == SearchHit(item, ToLower(search))
  {
    ToLowerIdempotent(search);
  }

  /** Array.prototype.find on the id: the first item with that id, if any. */
  function FindById<T>(s: seq<T>, itemOf: T -> Item, id: string): (r: Option<T>)
    ensures r.None? <==> forall i :: 0 <= i < |s| ==> itemOf(s[i]).id != id
    ensures r.Some? ==> exists k :: 0 <= k < |s| && s[k] == r.value && itemOf(s[k]).id == id
                                   && forall j :: 0 <= j < k ==> itemOf(s[j]).id != id
  {
    if |s| == 0 then None
    else if itemOf(s[0]).id == id then Some(s[0])
    else
      var r := FindById(s[1..], itemOf, id);
      assert forall i :: 1 <= i < |s| ==> s[i] == s[1..][i - 1];
      r
  }

  /** The sort step of a query: none when no policy is chosen. */
  function Arrange<T>(s: seq<T>, sortBy: Option<SortBy>, itemOf: T -> Item): (r: seq<T>)
    ensures multiset(r) == multiset(s)
    ensures sortBy.Some? ==> forall i, j :: 0 <= i < j < |r| ==>
      RankGe(SortKey(sortBy.value, itemOf(r[i])), SortKey(sortBy.value, itemOf(r[j])))
    ensures sortBy.None? ==> r == s
  {
    match sortBy
    case None => s
    case Some(k) => SortItems(s, k, itemOf)
  }
}
