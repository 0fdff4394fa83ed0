/** The marketplace sidebar (components/nav-main.tsx): folder ids, the rule
    that decides whether the current address belongs to a folder, and the
    effect that expands the folders the address belongs to. */
module NavMain {
  import opened Common
  import opened CatalogTypes
  import opened NavigationState

  // ---------------------------------------------------------------------
  // Addresses

  /** A query string read as name/value pairs, in order. */
  type Params = seq<(string, string)>

  /** No pair before index `i` has the name. */
  predicate NoneNamedBefore(params: Params, name: string, i: int) {
    forall j :: 0 <= j < i && j < |params| ==> params[j].0 != name
  }

  /** URLSearchParams.get: the value of the first pair with that name. */
  function Get(params: Params, name: string): (r: Option<string>)
    ensures r.Some? <==> exists i :: 0 <= i < |params| && params[i].0 == name
    ensures r.Some? ==> exists i :: 0 <= i < |params| && params[i] == (name, r.value)
                                    && NoneNamedBefore(params, name, i)
  {
    if |params| == 0 then None
    else if params[0].0 == name then Some(params[0].1)
    else
      var r := Get(params[1..], name);
      assert forall i :: 0 < i < |params| ==> params[i] == params[1..][i - 1];
      if r.Some? then
        var k :| 0 <= k < |params[1..]| && params[1..][k] == (name, r.value)
                 && NoneNamedBefore(params[1..], name, k);
        assert params[k + 1] == (name, r.value) && NoneNamedBefore(params, name, k + 1);
        r
      else r
  }

  /** One `name=value` piece of a query; a piece without `=` has an empty value. */
  function Pair(piece: string): (r: (string, string))
    ensures '=' !in piece ==> r == (piece, "")
    ensures '=' in piece ==> piece == r.0 + "=" + r.1 && '=' !in r.0
  {
    if '=' in piece then
      var i := FirstIndex(piece, '=');
      assert piece == piece[..i] + "=" + piece[i + 1..];
      (piece[..i], piece[i + 1..])
    else (piece, "")
  }

  predicate Filled(piece: string) { piece != "" }

  /** `new URLSearchParams(query)`: the `&`-separated pieces, empty ones skipped. */
  function ParseQuery(query: string): (r: Params)
    ensures forall i :: 0 <= i < |r| ==> '&' !in r[i].0
  {
    Pairs(Split(query, '&'))
  }

  /** The parsed query is the pair of each non-empty `&`-separated piece,
      in order. */
  lemma ParseQueryPieces(query: string)
    ensures ParseQuery(query) == PairEach(Filter(Split(query, '&'), Filled))
  {
    PairsOfFilled(Split(query, '&'));
  }

  /** The pair of each non-empty piece, in order. */
  function Pairs(pieces: seq<string>): (r: Params)
    requires forall p :: p in pieces ==> '&' !in p
    ensures |r| <= |pieces|
    ensures forall i :: 0 <= i < |r| ==> '&' !in r[i].0
  {
    if |pieces| == 0 then []
    else if pieces[0] == "" then Pairs(pieces[1..])
    else
      var pair := Pair(pieces[0]);
      assert '&' !in pair.0 by {
        if '=' in pieces[0] {
          assert pieces[0] == pair.0 + "=" + pair.1;
          assert forall c :: c in pair.0 ==> c in pieces[0];
        }
      }
      [pair] + Pairs(pieces[1..])
  }

  /** The pair of each piece, in order. */
  function PairEach(pieces: seq<string>): (r: Params)
    ensures |r| == |pieces|
    ensures forall i :: 0 <= i < |r| ==> r[i] == Pair(pieces[i])
  {
    if |pieces| == 0 then [] else [Pair(pieces[0])] + PairEach(pieces[1..])
  }

  /** Pairs reads exactly the non-empty pieces, one pair each, in order. */
  lemma {:induction false} PairsOfFilled(pieces: seq<string>)
    requires forall p :: p in pieces ==> '&' !in p
    ensures Pairs(pieces) == PairEach(Filter(pieces, Filled))
  {
    if |pieces| > 0 {
      var tail := pieces[1..];
      assert forall p :: p in tail ==> p in pieces;
      PairsOfFilled(tail);
      if pieces[0] != "" {
        var f := Filter(pieces, Filled);
        assert f == [pieces[0]] + Filter(tail, Filled);
        assert f[1..] == Filter(tail, Filled);
      }
    }
  }

  /** `url.split("?")`: the part before the first `?` ... */
  function Base(url: string): (r: string)
    ensures '?' !in r
    ensures '?' !in url ==> r == url
    ensures '?' in url ==> r + "?" <= url
  {
    SplitHead(url, '?');
    Split(url, '?')[0]
  }

  /** ... and the part between it and the next one. */
  function Query(url: string): (r: string)
    ensures '?' !in r
    ensures '?' !in url ==> r == ""
    ensures '?' in url ==> Base(url) + "?" + r <= url
  {
    SplitHead(url, '?');
    if '?' in url then
      var i := FirstIndex(url, '?');
      var rest := url[i + 1..];
      var r := Split(rest, '?')[0];
      SplitHead(rest, '?');
      assert Base(url) == url[..i];
      PrefixAfter(url[..i] + "?", r, rest);
      assert url == url[..i] + "?" + rest;
      Split(url, '?')[1]
    else ""
  }

  lemma PrefixAfter(a: string, b: string, c: string)
    requires b <= c
    ensures a + b <= a + c
  {
    assert (a + c)[..|a + b|] == a + c[..|b|];
  }

  /** A parameter of an item's address, present and not empty. */
  predicate HasParam(params: Params, name: string) {
    StringOn(Get(params, name))
  }

  // ---------------------------------------------------------------------
  // Folders

  datatype SubItem = SubItem(title: string, url: string)

  /** A top-level entry; an absent list of sub-items is the empty list. */
  datatype NavItem = NavItem(title: string, url: string, items: seq<SubItem>)

  /** The lower-cased text with each run of white space made one dash. */
  function Slug(s: string): (r: string)
    ensures forall c :: c in r ==> !IsWhite(c) && !IsUpper(c)
    ensures r == DashWhitespace(ToLower(s))
  {
    var lower := ToLower(s);
    assert forall c :: c in lower ==> !IsUpper(c);
    DashWhitespaceChars(lower);
    DashWhitespace(lower)
  }

  /** getFolderId. */
  function FolderId(group: string, title: string): (r: string)
    ensures r == Slug(group) + "-" + Slug(title)
    ensures forall c :: c in r ==> !IsWhite(c) && !IsUpper(c)
  {
    Slug(group) + "-" + Slug(title)
  }

  /** Words separated by white-space runs give their lower-cased forms
      joined by single dashes. */
  lemma SlugWords(words: seq<string>, sep: string)
    requires |words| >= 1 && |sep| > 0 && AllWhite(sep)
    requires forall i :: 0 <= i < |words| ==> |words[i]| > 0 && NoWhite(words[i])
    ensures Slug(JoinWith(words, sep)) == JoinWith(LowerAll(words), "-")
  {
    ToLowerJoin(words, sep);
    LowerKeepsWhite(sep);
    forall i | 0 <= i < |words| ensures |LowerAll(words)[i]| > 0 && NoWhite(LowerAll(words)[i]) {
      LowerKeepsWhite(words[i]);
    }
    DashWhitespaceJoin(LowerAll(words), ToLower(sep));
  }

  /** A folder id is the group's words and then the title's, lower-cased
      and joined by single dashes: "My Group" and "Sales Ops" give
      "my-group-sales-ops". */
  lemma FolderIdWords(groupWords: seq<string>, titleWords: seq<string>, sep: string)
    requires |groupWords| >= 1 && |titleWords| >= 1 && |sep| > 0 && AllWhite(sep)
    requires forall i :: 0 <= i < |groupWords| ==> |groupWords[i]| > 0 && NoWhite(groupWords[i])
    requires forall i :: 0 <= i < |titleWords| ==> |titleWords[i]| > 0 && NoWhite(titleWords[i])
    ensures FolderId(JoinWith(groupWords, sep), JoinWith(titleWords, sep))
         == JoinWith(LowerAll(groupWords + titleWords), "-")
  {
    SlugWords(groupWords, sep);
    SlugWords(titleWords, sep);
    assert LowerAll(groupWords + titleWords) == LowerAll(groupWords) + LowerAll(titleWords);
    JoinWithAppend(LowerAll(groupWords), LowerAll(titleWords), "-");
  }

  const SubKeys: seq<string> := ["category", "capability", "module", "sub"]

  /** The current address agrees with `own` on parameter `k`, when `own` sets it. */
  predicate Agrees(current: Params, own: Params, k: string) {
    HasParam(own, k) ==> Get(current, k) == Get(own, k)
  }

  /** The sub-item test: the path is the sub-item's path, and each of the
      four parameters its address sets has the same current value. */
  function SubMatches(sub: SubItem, pathname: string, current: Params): (r: bool)
    ensures r <==> (pathname == Base(sub.url) &&
      forall k :: k in SubKeys ==> Agrees(current, ParseQuery(Query(sub.url)), k))
  {
    var own := ParseQuery(Query(sub.url));
    assert forall k :: k in SubKeys <==> k == "category" || k == "capability" || k == "module" || k == "sub";
    if pathname == Base(sub.url) then
      if !Agrees(current, own, "category") then false
      else if !Agrees(current, own, "capability") then false
      else if !Agrees(current, own, "module") then false
      else if !Agrees(current, own, "sub") then false
      else true
    else false
  }

  /** The folder's own address matches: its path, and its category when it
      sets one, or else its capability when it sets one. */
  predicate DirectMatch(item: NavItem, pathname: string, current: Params) {
    var own := ParseQuery(Query(item.url));
    && pathname == Base(item.url)
    && (HasParam(own, "category") ==> Get(current, "category") == Get(own, "category"))
    && (!HasParam(own, "category") && HasParam(own, "capability") ==>
          Get(current, "capability") == Get(own, "capability"))
  }

  /** isCurrentFolder. */
  function IsCurrentFolder(item: NavItem, pathname: string, current: Params): (r: bool)
    ensures r <==> (DirectMatch(item, pathname, current) ||
      exists sub :: sub in item.items && SubMatches(sub, pathname, current))
  {
    var own := ParseQuery(Query(item.url));
    var category := Get(own, "category");
    var capability := Get(own, "capability");
    var direct :=
      if pathname == Base(item.url) then
        if StringOn(category) then Get(current, "category") == category
        else if StringOn(capability) then Get(current, "capability") == capability
        else true
      else false;
    if direct then true
    else if |item.items| > 0 then exists sub :: sub in item.items && SubMatches(sub, pathname, current)
    else false
  }

  /** A folder only matches on its own path or on one of its sub-items' paths. */
  lemma MatchNeedsPath(item: NavItem, pathname: string, current: Params)
    requires IsCurrentFolder(item, pathname, current)
    ensures pathname == Base(item.url) || exists sub :: sub in item.items && pathname == Base(sub.url)
  {
  }

  /** A folder whose address sets neither a category nor a capability
      matches on its path alone. */
  lemma PlainFolderMatchesOnPath(item: NavItem, current: Params)
    requires !HasParam(ParseQuery(Query(item.url)), "category") && !HasParam(ParseQuery(Query(item.url)), "capability")
    ensures IsCurrentFolder(item, Base(item.url), current)
  {
  }

  // ---------------------------------------------------------------------
  // Auto-expansion

  /** The folder is one the effect opens: it has sub-items and matches, and
      its id was not expanded when the effect ran. */
  predicate Wanted(group: string, item: NavItem, pathname: string, current: Params, snapshot: seq<string>) {
    |item.items| > 0 && IsCurrentFolder(item, pathname, current) && FolderId(group, item.title) !in snapshot
  }

  /** The ids the effect toggles, in item order. */
  function Targets(group: string, items: seq<NavItem>, pathname: string, current: Params, snapshot: seq<string>): (r: seq<string>)
    ensures forall x :: x in r ==> x !in snapshot
    ensures forall item :: item in items && Wanted(group, item, pathname, current, snapshot) ==>
      FolderId(group, item.title) in r
  {
    if |items| == 0 then []
    else
      var last := items[|items| - 1];
      var front := items[..|items| - 1];
      assert forall item :: item in items ==> item in front || item == last;
      Targets(group, front, pathname, current, snapshot)
        + (if Wanted(group, last, pathname, current, snapshot) then [FolderId(group, last.title)] else [])
  }

  /** Toggling each id in turn. */
  function ToggleEach(s: seq<string>, ids: seq<string>): seq<string> {
    if |ids| == 0 then s else Toggle(ToggleEach(s, ids[..|ids| - 1]), ids[|ids| - 1])
  }

  /** Toggling ids that were not expanded never closes a folder. */
  lemma {:induction false} ToggleEachKeeps(s: seq<string>, ids: seq<string>)
    requires forall x :: x in ids ==> x !in s
    ensures forall y :: y in s ==> y in ToggleEach(s, ids)
  {
    if |ids| > 0 {
      ToggleEachKeeps(s, ids[..|ids| - 1]);
    }
  }

  /** Toggling distinct ids that were not expanded opens exactly those. */
  lemma {:induction false} ToggleEachOpens(s: seq<string>, ids: seq<string>)
    requires forall x :: x in ids ==> x !in s
    requires NoDuplicates(ids)
    ensures forall y :: y in ToggleEach(s, ids) <==> y in s || y in ids
  {
    if |ids| > 0 {
      var front := ids[..|ids| - 1];
      ToggleEachOpens(s, front);
      assert ids == front + [ids[|ids| - 1]];
      assert ids[|ids| - 1] !in front;
    }
  }

  /** Targets grow one folder at a time. */
  lemma TargetsStep(group: string, items: seq<NavItem>, i: nat, pathname: string, current: Params, snapshot: seq<string>)
    requires i < |items|
    ensures Targets(group, items[..i + 1], pathname, current, snapshot) ==
      Targets(group, items[..i], pathname, current, snapshot)
      + (if Wanted(group, items[i], pathname, current, snapshot) then [FolderId(group, items[i].title)] else [])
  {
    assert items[..i + 1][..i] == items[..i];
  }

  lemma ToggleEachStep(s: seq<string>, ids: seq<string>, step: seq<string>)
    requires |step| <= 1
    ensures ToggleEach(s, ids + step) == if |step| == 0 then ToggleEach(s, ids) else Toggle(ToggleEach(s, ids), step[0])
  {
    if |step| == 0 {
      assert ids + step == ids;
    } else {
      assert (ids + step)[..|ids|] == ids;
    }
  }

  /** One turn of the effect's loop: the folder is toggled when wanted. */
  method ExpandOne(nav: Navigation, group: string, item: NavItem, pathname: string, current: Params, snapshot: seq<string>)
    requires nav.Valid()
    modifies nav`expanded, nav`hasInteracted, nav`storage
    ensures nav.Valid()
    ensures nav.hasInteracted == old(nav.hasInteracted)
    ensures nav.expanded == if Wanted(group, item, pathname, current, snapshot)
      then Toggle(old(nav.expanded), FolderId(group, item.title)) else old(nav.expanded)
  {
    if |item.items| > 0 && IsCurrentFolder(item, pathname, current) {
      var folderId := FolderId(group, item.title);
      if folderId !in snapshot {
        nav.ToggleFolder(folderId, false);
      }
    }
  }

  /** After the effect's loop every folder that was expanded still is, and
      with distinct targets every matching folder with sub-items is. */
  lemma ExpansionOutcome(group: string, items: seq<NavItem>, pathname: string, current: Params, snapshot: seq<string>)
    ensures var after := ToggleEach(snapshot, Targets(group, items, pathname, current, snapshot));
      && (forall f :: f in snapshot ==> f in after)
      && (NoDuplicates(Targets(group, items, pathname, current, snapshot)) ==>
            forall item :: item in items && |item.items| > 0 && IsCurrentFolder(item, pathname, current) ==>
              FolderId(group, item.title) in after)
  {
    var targets := Targets(group, items, pathname, current, snapshot);
    ToggleEachKeeps(snapshot, targets);
    if NoDuplicates(targets) {
      ToggleEachOpens(snapshot, targets);
    }
  }

  /** One turn of the loop, stated over the targets so far. */
  method ExpandNext(nav: Navigation, group: string, items: seq<NavItem>, i: nat, pathname: string, current: Params, snapshot: seq<string>)
    requires i < |items| && nav.Valid()
    requires nav.expanded == ToggleEach(snapshot, Targets(group, items[..i], pathname, current, snapshot))
    modifies nav`expanded, nav`hasInteracted, nav`storage
    ensures nav.Valid()
    ensures nav.hasInteracted == old(nav.hasInteracted)
    ensures nav.expanded == ToggleEach(snapshot, Targets(group, items[..i + 1], pathname, current, snapshot))
  {
    ghost var done := Targets(group, items[..i], pathname, current, snapshot);
    ghost var step := if Wanted(group, items[i], pathname, current, snapshot) then [FolderId(group, items[i].title)] else [];
    TargetsStep(group, items, i, pathname, current, snapshot);
    ToggleEachStep(snapshot, done, step);
    ExpandOne(nav, group, items[i], pathname, current, snapshot);
  }

  /** The loop of the effect: each item is checked against the set as it
      was before the loop, and wanted folders are toggled in item order. */
  method ExpandAll(nav: Navigation, group: string, items: seq<NavItem>, pathname: string, current: Params)
    requires nav.Valid() && nav.isHydrated
    modifies nav`expanded, nav`hasInteracted, nav`storage
    ensures nav.Valid()
    ensures nav.hasInteracted == old(nav.hasInteracted)
    ensures nav.expanded == ToggleEach(old(nav.expanded), Targets(group, items, pathname, current, old(nav.expanded)))
  {
    var snapshot := nav.expanded;
    var i := 0;
    while i < |items|
      invariant 0 <= i <= |items|
      invariant nav.Valid() && nav.isHydrated
      invariant nav.hasInteracted == old(nav.hasInteracted)
      invariant nav.expanded == ToggleEach(snapshot, Targets(group, items[..i], pathname, current, snapshot))
    {
      ExpandNext(nav, group, items, i, pathname, current, snapshot);
      i := i + 1;
    }
    assert items[..|items|] == items;
  }

  /** The auto-expand effect: once loaded and mounted, each matching folder
      with sub-items that was not expanded is toggled, without marking the
      user as having interacted. The test reads the set as it was when the
      effect ran; the toggles happen afterwards, one by one. */
  method AutoExpand(nav: Navigation, group: string, items: seq<NavItem>, pathname: string, current: Params, isMounted: bool)
    requires nav.Valid()
    modifies nav`expanded, nav`hasInteracted, nav`storage
    ensures nav.Valid()
    ensures nav.hasInteracted == old(nav.hasInteracted)
    ensures !(nav.isHydrated && isMounted) ==> nav.expanded == old(nav.expanded)
    ensures nav.isHydrated && isMounted ==>
      nav.expanded == ToggleEach(old(nav.expanded), Targets(group, items, pathname, current, old(nav.expanded)))
    ensures forall f :: old(nav.IsExpanded(f)) ==> nav.IsExpanded(f)
    ensures nav.isHydrated && isMounted && NoDuplicates(Targets(group, items, pathname, current, old(nav.expanded))) ==>
      forall item :: item in items && |item.items| > 0 && IsCurrentFolder(item, pathname, current) ==>
        nav.IsExpanded(FolderId(group, item.title))
  {
    if !nav.isHydrated || !isMounted {
      return;
    }
    ghost var snapshot := nav.expanded;
    ExpandAll(nav, group, items, pathname, current);
    ExpansionOutcome(group, items, pathname, current, snapshot);
  }
}
