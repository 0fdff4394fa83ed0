/** The query engine of the learning-platform marketplace
    (netsuite-marketplace/suitecloud-learning-platform/lib/marketplace.ts):
    filtered and sorted listings, look-up by id, "related items" ranked by
    shared tags then downloads, and the sorted set of business areas a
    listing covers. */
module SuiteCatalog {
  import opened Common
  import opened CatalogTypes

  // ---------------------------------------------------------------------
  // Filters; each accepts everything when the option is off

  predicate FormatOk(format: PromptFormat, wanted: Option<PromptFormat>) {
    wanted.Some? ==> format == wanted.value
  }

  predicate AreaOk(area: string, wanted: Option<string>) {
    StringOn(wanted) ==> area == wanted.value
  }

  /** A prompt without a target platform fails a platform filter. */
  predicate PlatformOk(platform: Option<TargetPlatform>, wanted: Option<TargetPlatform>) {
    wanted.Some? ==> platform == wanted
  }

  /** An item without a module list fails a module filter. */
  predicate ModulesOk(modules: Option<seq<string>>, wanted: Option<seq<string>>) {
    ListOn(wanted) ==> modules.Some? && SharesTag(modules.value, wanted.value)
  }

  /** Every filter of the prompt engine accepts the prompt. */
  predicate PromptMatches(p: Prompt, f: FilterOptions) {
    ByFormat(f)(p) && ByPromptArea(f)(p) && ByPlatform(f)(p) && ByPromptSearch(f)(p)
    && ByPromptRating(f)(p) && ByPromptTags(f)(p) && ByPromptModules(f)(p)
  }

  /** Skills have no format or platform filter. */
  predicate SkillMatches(s: Skill, f: FilterOptions) {
    BySkillArea(f)(s) && BySkillSearch(f)(s) && BySkillRating(f)(s) && BySkillTags(f)(s) && BySkillModules(f)(s)
  }

  function ByFormat(f: FilterOptions): Prompt -> bool { (p: Prompt) => FormatOk(p.format, f.format) }
  function ByPromptArea(f: FilterOptions): Prompt -> bool { (p: Prompt) => AreaOk(p.businessArea, f.businessArea) }
  function ByPlatform(f: FilterOptions): Prompt -> bool { (p: Prompt) => PlatformOk(p.targetPlatform, f.targetPlatform) }
  function ByPromptSearch(f: FilterOptions): Prompt -> bool { (p: Prompt) => SearchOk(p.item, f.search) }
  function ByPromptRating(f: FilterOptions): Prompt -> bool { (p: Prompt) => RatingOk(p.item, f.minRating) }
  function ByPromptTags(f: FilterOptions): Prompt -> bool { (p: Prompt) => TagsOk(p.item, f.tags) }
  function ByPromptModules(f: FilterOptions): Prompt -> bool { (p: Prompt) => ModulesOk(p.netsuiteModules, f.netsuiteModules) }

  function BySkillArea(f: FilterOptions): Skill -> bool { (s: Skill) => AreaOk(s.businessArea, f.businessArea) }
  function BySkillSearch(f: FilterOptions): Skill -> bool { (s: Skill) => SearchOk(s.item, f.search) }
  function BySkillRating(f: FilterOptions): Skill -> bool { (s: Skill) => RatingOk(s.item, f.minRating) }
  function BySkillTags(f: FilterOptions): Skill -> bool { (s: Skill) => TagsOk(s.item, f.tags) }
  function BySkillModules(f: FilterOptions): Skill -> bool { (s: Skill) => ModulesOk(s.netsuiteModules, f.netsuiteModules) }

  /** The prompts a query keeps: the filters in the engine's order. */
  function SelectPrompts(prompts: seq<Prompt>, f: FilterOptions): (r: seq<Prompt>)
    ensures forall p :: p in r <==> p in prompts && PromptMatches(p, f)
    ensures multiset(r) <= multiset(prompts)
    ensures forall p :: multiset(r)[p] == if PromptMatches(p, f) then multiset(prompts)[p] else 0
  {
    var r1 := Filter(prompts, ByFormat(f));
    var r2 := Filter(r1, ByPromptArea(f));
    var r3 := Filter(r2, ByPlatform(f));
    var r4 := Filter(r3, ByPromptSearch(f));
    var r5 := Filter(r4, ByPromptRating(f));
    var r6 := Filter(r5, ByPromptTags(f));
    var r := Filter(r6, ByPromptModules(f));
    forall p ensures multiset(r)[p] == if PromptMatches(p, f) then multiset(prompts)[p] else 0 {
      FilterCount(prompts, ByFormat(f), p);
      FilterCount(r1, ByPromptArea(f), p);
      FilterCount(r2, ByPlatform(f), p);
      FilterCount(r3, ByPromptSearch(f), p);
      FilterCount(r4, ByPromptRating(f), p);
      FilterCount(r5, ByPromptTags(f), p);
      FilterCount(r6, ByPromptModules(f), p);
    }
    r
  }

  /** The prompt selection keeps catalog order: a prompt added at the end
      is, when accepted, the last one selected. */
  lemma SelectPromptsAppend(prompts: seq<Prompt>, x: Prompt, f: FilterOptions)
    ensures SelectPrompts(prompts + [x], f) == SelectPrompts(prompts, f) + (if PromptMatches(x, f) then [x] else [])
  {
    var r1 := Filter(prompts, ByFormat(f));
    var r2 := Filter(r1, ByPromptArea(f));
    var r3 := Filter(r2, ByPlatform(f));
    var r4 := Filter(r3, ByPromptSearch(f));
    var r5 := Filter(r4, ByPromptRating(f));
    var r6 := Filter(r5, ByPromptTags(f));
    var s1 := Filter(prompts + [x], ByFormat(f));
    var s2 := Filter(s1, ByPromptArea(f));
    var s3 := Filter(s2, ByPlatform(f));
    var s4 := Filter(s3, ByPromptSearch(f));
    var s5 := Filter(s4, ByPromptRating(f));
    var s6 := Filter(s5, ByPromptTags(f));
    var k1 := ByFormat(f)(x);
    var k2 := k1 && ByPromptArea(f)(x);
    var k3 := k2 && ByPlatform(f)(x);
    var k4 := k3 && ByPromptSearch(f)(x);
    var k5 := k4 && ByPromptRating(f)(x);
    var k6 := k5 && ByPromptTags(f)(x);
    FilterStep(prompts + [x], prompts, x, true, ByFormat(f));
    FilterStep(s1, r1, x, k1, ByPromptArea(f));
    FilterStep(s2, r2, x, k2, ByPlatform(f));
    FilterStep(s3, r3, x, k3, ByPromptSearch(f));
    FilterStep(s4, r4, x, k4, ByPromptRating(f));
    FilterStep(s5, r5, x, k5, ByPromptTags(f));
    FilterStep(s6, r6, x, k6, ByPromptModules(f));
  }

  /** The skills a query keeps: the filters in the engine's order. */
  function SelectSkills(skills: seq<Skill>, f: FilterOptions): (r: seq<Skill>)
    ensures forall s :: s in r <==> s in skills && SkillMatches(s, f)
    ensures multiset(r) <= multiset(skills)
    ensures forall s :: multiset(r)[s] == if SkillMatches(s, f) then multiset(skills)[s] else 0
  {
    var r1 := Filter(skills, BySkillArea(f));
    var r2 := Filter(r1, BySkillSearch(f));
    var r3 := Filter(r2, BySkillRating(f));
    var r4 := Filter(r3, BySkillTags(f));
    var r := Filter(r4, BySkillModules(f));
    forall s ensures multiset(r)[s] == if SkillMatches(s, f) then multiset(skills)[s] else 0 {
      FilterCount(skills, BySkillArea(f), s);
      FilterCount(r1, BySkillSearch(f), s);
      FilterCount(r2, BySkillRating(f), s);
      FilterCount(r3, BySkillTags(f), s);
      FilterCount(r4, BySkillModules(f), s);
    }
    r
  }

  /** The skill selection keeps catalog order. */
  lemma SelectSkillsAppend(skills: seq<Skill>, x: Skill, f: FilterOptions)
    ensures SelectSkills(skills + [x], f) == SelectSkills(skills, f) + (if SkillMatches(x, f) then [x] else [])
  {
    var r1 := Filter(skills, BySkillArea(f));
    var r2 := Filter(r1, BySkillSearch(f));
    var r3 := Filter(r2, BySkillRating(f));
    var r4 := Filter(r3, BySkillTags(f));
    var s1 := Filter(skills + [x], BySkillArea(f));
    var s2 := Filter(s1, BySkillSearch(f));
    var s3 := Filter(s2, BySkillRating(f));
    var s4 := Filter(s3, BySkillTags(f));
    var k1 := BySkillArea(f)(x);
    var k2 := k1 && BySkillSearch(f)(x);
    var k3 := k2 && BySkillRating(f)(x);
    var k4 := k3 && BySkillTags(f)(x);
    FilterStep(skills + [x], skills, x, true, BySkillArea(f));
    FilterStep(s1, r1, x, k1, BySkillSearch(f));
    FilterStep(s2, r2, x, k2, BySkillRating(f));
    FilterStep(s3, r3, x, k3, BySkillTags(f));
    FilterStep(s4, r4, x, k4, BySkillModules(f));
  }


  /** This engine has no "popularity" case: that choice keeps catalog order. */
  function SortPolicy(sortBy: Option<SortBy>): (r: Option<SortBy>)
    ensures r.Some? <==> sortBy.Some? && sortBy.value != Popularity
    ensures r.Some? ==> r == sortBy
  {
    if sortBy == Some(Popularity) then None else sortBy
  }

  // ---------------------------------------------------------------------
  // Listings

  /** The filtering half of getPrompts: the working copy narrowed by each
      filter the options switch on, in the engine's order. */
  method NarrowedPrompts(data: MarketplaceData, f: FilterOptions) returns (prompts: seq<Prompt>)
    ensures prompts == SelectPrompts(data.prompts, f)
  {
    prompts := Narrow(data.prompts, f.format.Some?, ByFormat(f));
    prompts := Narrow(prompts, StringOn(f.businessArea), ByPromptArea(f));
    prompts := Narrow(prompts, f.targetPlatform.Some?, ByPlatform(f));
    prompts := Narrow(prompts, StringOn(f.search), ByPromptSearch(f));
    prompts := Narrow(prompts, RatingOn(f.minRating), ByPromptRating(f));
    prompts := Narrow(prompts, ListOn(f.tags), ByPromptTags(f));
    prompts := Narrow(prompts, ListOn(f.netsuiteModules), ByPromptModules(f));
  }

  /** getPrompts: the narrowed working copy, then the sort. */
  method GetPrompts(data: MarketplaceData, f: FilterOptions) returns (result: seq<Prompt>)
    ensures result == Arrange(SelectPrompts(data.prompts, f), SortPolicy(f.sortBy), PromptItem)
    ensures forall p :: p in result <==> p in data.prompts && PromptMatches(p, f)
    ensures multiset(result) <= multiset(data.prompts)
  {
    ghost var selected := SelectPrompts(data.prompts, f);
    result := NarrowedPrompts(data, f);
    var policy := SortPolicy(f.sortBy);
    if policy.Some? {
      result := SortItems(result, policy.value, PromptItem);
    }
    assert result == Arrange(selected, policy, PromptItem);
    SameElements(result, selected);
  }

  /** The filtering half of getSkills. */
  method NarrowedSkills(data: MarketplaceData, f: FilterOptions) returns (skills: seq<Skill>)
    ensures skills == SelectSkills(data.skills, f)
  {
    skills := Narrow(data.skills, StringOn(f.businessArea), BySkillArea(f));
    skills := Narrow(skills, StringOn(f.search), BySkillSearch(f));
    skills := Narrow(skills, RatingOn(f.minRating), BySkillRating(f));
    skills := Narrow(skills, ListOn(f.tags), BySkillTags(f));
    skills := Narrow(skills, ListOn(f.netsuiteModules), BySkillModules(f));
  }

  /** getSkills: the narrowed working copy, then the sort. */
  method GetSkills(data: MarketplaceData, f: FilterOptions) returns (result: seq<Skill>)
    ensures result == Arrange(SelectSkills(data.skills, f), SortPolicy(f.sortBy), SkillItem)
    ensures forall s :: s in result <==> s in data.skills && SkillMatches(s, f)
    ensures multiset(result) <= multiset(data.skills)
  {
    ghost var selected := SelectSkills(data.skills, f);
    result := NarrowedSkills(data, f);
    var policy := SortPolicy(f.sortBy);
    if policy.Some? {
      result := SortItems(result, policy.value, SkillItem);
    }
    assert result == Arrange(selected, policy, SkillItem);
    SameElements(result, selected);
  }

  /** Asking for "popularity" returns the filtered prompts in catalog order. */
  lemma PopularityKeepsOrder(data: MarketplaceData, f: FilterOptions)
    requires f.sortBy == Some(Popularity)
    ensures Arrange(SelectPrompts(data.prompts, f), SortPolicy(f.sortBy), PromptItem)
         == SelectPrompts(data.prompts, f)
  {
  }

  function GetPromptById(data: MarketplaceData, id: string): (r: Option<Prompt>)
    ensures r.Some? ==> r.value in data.prompts && r.value.item.id == id
    ensures r.None? <==> forall p :: p in data.prompts ==> p.item.id != id
    ensures r.Some? ==> exists k :: (0 <= k < |data.prompts| && data.prompts[k] == r.value
      && forall j :: 0 <= j < k ==> data.prompts[j].item.id != id)
  {
    FindById(data.prompts, PromptItem, id)
  }

  function GetSkillById(data: MarketplaceData, id: string): (r: Option<Skill>)
    ensures r.Some? ==> r.value in data.skills && r.value.item.id == id
    ensures r.None? <==> forall s :: s in data.skills ==> s.item.id != id
    ensures r.Some? ==> exists k :: (0 <= k < |data.skills| && data.skills[k] == r.value
      && forall j :: 0 <= j < k ==> data.skills[j].item.id != id)
  {
    FindById(data.skills, SkillItem, id)
  }

  // ---------------------------------------------------------------------
  // Related items

  /** How many of a candidate's tags (counted with repetition) the seed has. */
  function SharedTagCount(tags: seq<string>, seedTags: seq<string>): (n: nat)
    ensures n <= |tags|
    ensures n > 0 <==> SharesTag(tags, seedTags)
  {
    var shared := Filter(tags, (t: string) => t in seedTags);
    assert |shared| > 0 ==> shared[0] in shared;
    |shared|
  }

  /** More shared tags first, then more downloads. */
  function RelatedRank(item: Item, seedTags: seq<string>): Rank {
    Rank(SharedTagCount(item.tags, seedTags) as real, item.downloads as real)
  }

  /** The best `limit` candidates (`slice(0, limit)` of the ranked list). */
  function TopRelated<T>(candidates: seq<T>, seedTags: seq<string>, itemOf: T -> Item, limit: int): (r: seq<T>)
    ensures |r| == SliceEnd(|candidates|, limit)
    ensures multiset(r) <= multiset(candidates)
    ensures forall x :: x in r ==> x in candidates
    ensures forall i, j :: 0 <= i < j < |r| ==>
      RankGe(RelatedRank(itemOf(r[i]), seedTags), RelatedRank(itemOf(r[j]), seedTags))
    ensures forall x, y :: x in candidates && x !in r && y in r ==>
      RankGe(RelatedRank(itemOf(y), seedTags), RelatedRank(itemOf(x), seedTags))
  {
    var rank := (x: T) => RelatedRank(itemOf(x), seedTags);
    var r := TopRanked(candidates, rank, limit);
    forall x, y | x in candidates && x !in r && y in r
      ensures RankGe(RelatedRank(itemOf(y), seedTags), RelatedRank(itemOf(x), seedTags))
    {
      assert RankGe(rank(y), rank(x));
    }
    r
  }

  predicate RelatedPrompt(p: Prompt, seed: Prompt, promptId: string) {
    p.item.id != promptId
    && (SharesTag(p.item.tags, seed.item.tags) || p.businessArea == seed.businessArea
        || p.format == seed.format || p.item.author.id == seed.item.author.id)
  }

  predicate RelatedSkill(s: Skill, seed: Skill, skillId: string) {
    s.item.id != skillId
    && (SharesTag(s.item.tags, seed.item.tags) || s.businessArea == seed.businessArea
        || s.item.author.id == seed.item.author.id)
  }

  /** getRelatedPrompts: no result for an unknown id; otherwise the
      highest-ranked prompts sharing a tag, business area, format or author
      with it, never the prompt itself. */
  function GetRelatedPrompts(data: MarketplaceData, promptId: string, limit: int): (r: seq<Prompt>)
    ensures GetPromptById(data, promptId).None? ==> r == []
    ensures forall p :: p in r ==> p in data.prompts && p.item.id != promptId
    ensures GetPromptById(data, promptId).Some? ==>
      var seed := GetPromptById(data, promptId).value;
      && (forall p :: p in r ==> RelatedPrompt(p, seed, promptId))
      && |r| == SliceEnd(|Filter(data.prompts, (p: Prompt) => RelatedPrompt(p, seed, promptId))|, limit)
      && multiset(r) <= multiset(Filter(data.prompts, (p: Prompt) => RelatedPrompt(p, seed, promptId)))
      && (forall i, j :: 0 <= i < j < |r| ==>
            RankGe(RelatedRank(r[i].item, seed.item.tags), RelatedRank(r[j].item, seed.item.tags)))
      && (forall x, y :: x in data.prompts && RelatedPrompt(x, seed, promptId) && x !in r && y in r ==>
            RankGe(RelatedRank(y.item, seed.item.tags), RelatedRank(x.item, seed.item.tags)))
  {
    match GetPromptById(data, promptId)
    case None => []
    case Some(seed) =>
      var candidates := Filter(data.prompts, (p: Prompt) => RelatedPrompt(p, seed, promptId));
      TopRelated(candidates, seed.item.tags, PromptItem, limit)
  }

  /** getRelatedSkills: as for prompts, without the format criterion. */
  function GetRelatedSkills(data: MarketplaceData, skillId: string, limit: int): (r: seq<Skill>)
    ensures GetSkillById(data, skillId).None? ==> r == []
    ensures forall s :: s in r ==> s in data.skills && s.item.id != skillId
    ensures GetSkillById(data, skillId).Some? ==>
      var seed := GetSkillById(data, skillId).value;
      && (forall s :: s in r ==> RelatedSkill(s, seed, skillId))
      && |r| == SliceEnd(|Filter(data.skills, (s: Skill) => RelatedSkill(s, seed, skillId))|, limit)
      && multiset(r) <= multiset(Filter(data.skills, (s: Skill) => RelatedSkill(s, seed, skillId)))
      && (forall i, j :: 0 <= i < j < |r| ==>
            RankGe(RelatedRank(r[i].item, seed.item.tags), RelatedRank(r[j].item, seed.item.tags)))
      && (forall x, y :: x in data.skills && RelatedSkill(x, seed, skillId) && x !in r && y in r ==>
            RankGe(RelatedRank(y.item, seed.item.tags), RelatedRank(x.item, seed.item.tags)))
  {
    match GetSkillById(data, skillId)
    case None => []
    case Some(seed) =>
      var candidates := Filter(data.skills, (s: Skill) => RelatedSkill(s, seed, skillId));
      TopRelated(candidates, seed.item.tags, SkillItem, limit)
  }

  // ---------------------------------------------------------------------
  // Business areas present in a listing

  function AreasOf<T>(items: seq<T>, areaOf: T -> string): set<string> {
    set i | 0 <= i < |items| :: areaOf(items[i])
  }

  /** Collects each item's business area into a set, then sorts it. */
  method AvailableAreas<T>(items: seq<T>, areaOf: T -> string) returns (areas: seq<string>)
    ensures StrictlyAscending(areas)
    ensures forall a :: a in areas <==> a in AreasOf(items, areaOf)
  {
    var seen: set<string> := {};
    var i := 0;
    while i < |items|
      invariant 0 <= i <= |items|
      invariant seen == AreasOf(items[..i], areaOf)
    {
      assert items[..i + 1][..i] == items[..i];
      seen := seen + {areaOf(items[i])};
      i := i + 1;
    }
    assert items[..i] == items;
    areas := SortStrings(seen);
  }

  function PromptArea(p: Prompt): string { p.businessArea }

  function SkillArea(s: Skill): string { s.businessArea }

  method AvailableBusinessAreasFromPrompts(prompts: seq<Prompt>) returns (areas: seq<string>)
    ensures StrictlyAscending(areas)
    ensures forall a :: a in areas <==> exists p :: p in prompts && p.businessArea == a
  {
    areas := AvailableAreas(prompts, PromptArea);
    forall a ensures a in AreasOf(prompts, PromptArea) <==> exists p :: p in prompts && p.businessArea == a {
      if a in AreasOf(prompts, PromptArea) {
        var i :| 0 <= i < |prompts| && prompts[i].businessArea == a;
        assert prompts[i] in prompts;
      }
    }
  }

  method AvailableBusinessAreasFromSkills(skills: seq<Skill>) returns (areas: seq<string>)
    ensures StrictlyAscending(areas)
    ensures forall a :: a in areas <==> exists s :: s in skills && s.businessArea == a
  {
    areas := AvailableAreas(skills, SkillArea);
    forall a ensures a in AreasOf(skills, SkillArea) <==> exists s :: s in skills && s.businessArea == a {
      if a in AreasOf(skills, SkillArea) {
        var i :| 0 <= i < |skills| && skills[i].businessArea == a;
        assert skills[i] in skills;
      }
    }
  }

  /** The area list is a function of the set of areas alone: listings
      covering the same areas give the same list. */
  lemma AreasDetermined(a: seq<string>, b: seq<string>, areas: set<string>)
    requires StrictlyAscending(a) && StrictlyAscending(b)
    requires forall x :: x in a <==> x in areas
    requires forall x :: x in b <==> x in areas
    ensures a == b
  {
    AscendingUnique(a, b);
  }
}
