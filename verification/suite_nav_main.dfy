/** The learning platform's sidebar
    (netsuite-marketplace/suitecloud-learning-platform/components/nav-main.tsx):
    which folders are open, and the staggered fade-in delays. */
module SuiteNavMain {
  datatype SubItem = SubItem(title: string, url: string)

  /** A top-level entry; an absent list of sub-items is the empty list. */
  datatype NavItem = NavItem(title: string, url: string, items: seq<SubItem>)

  /** The entry is a folder: it has sub-items. */
  predicate IsFolder(item: NavItem) {
    |item.items| > 0
  }

  /** The state initialiser: every folder starts open; leaf entries get no
      record. */
  method InitialOpenStates(items: seq<NavItem>) returns (m: map<string, bool>)
    ensures forall t :: t in m <==> exists item :: item in items && IsFolder(item) && item.title == t
    ensures forall t :: t in m ==> m[t]
  {
    m := map[];
    var i := 0;
    while i < |items|
      invariant 0 <= i <= |items|
      invariant forall t :: t in m <==> exists item :: item in items[..i] && IsFolder(item) && item.title == t
      invariant forall t :: t in m ==> m[t]
    {
      assert items[..i + 1] == items[..i] + [items[i]];
      if IsFolder(items[i]) {
        m := m[items[i].title := true];
      }
      i := i + 1;
    }
    assert items[..i] == items;
  }

  /** The open state a folder is shown with: its record, or open when it
      has none. */
  function IsOpen(m: map<string, bool>, title: string): (r: bool)
    ensures title !in m ==> r
    ensures title in m ==> r == m[title]
  {
    if title in m then m[title] else true
  }

  /** toggleOpen as written: the record becomes the negation of the stored
      value, and a missing record counts as closed. */
  function ToggleOpen(m: map<string, bool>, title: string): (r: map<string, bool>)
    ensures title in r && r[title] == !(title in m && m[title])
    ensures forall t :: t != title ==> (t in r <==> t in m) && (t in m ==> r[t] == m[t])
  {
    m[title := !(title in m && m[title])]
  }

  /** A folder with no record is shown open, and toggling it leaves it
      shown open: the first click on it has no visible effect. */
  lemma ToggleOpenMissingStaysOpen(m: map<string, bool>, title: string)
    requires title !in m
    ensures IsOpen(m, title) && IsOpen(ToggleOpen(m, title), title)
  {
  }

  /** A folder with a record is shown flipped by a toggle. */
  lemma ToggleOpenFlipsRecorded(m: map<string, bool>, title: string)
    requires title in m
    ensures IsOpen(ToggleOpen(m, title), title) == !IsOpen(m, title)
  {
  }

  /** The toggle the shown state calls for: the negation of what is shown. */
  function ToggleShown(m: map<string, bool>, title: string): (r: map<string, bool>)
    ensures IsOpen(r, title) == !IsOpen(m, title)
    ensures forall t :: t != title ==> IsOpen(r, t) == IsOpen(m, t)
  {
    m[title := !IsOpen(m, title)]
  }

  /** Toggling a folder twice shows it as it was. */
  lemma ToggleShownTwice(m: map<string, bool>, title: string, t: string)
    ensures IsOpen(ToggleShown(ToggleShown(m, title), title), t) == IsOpen(m, t)
  {
  }

  /** On the records the initialiser makes, the written toggle and the
      corrected one agree. */
  lemma ToggleAgreesOnInitialFolders(m: map<string, bool>, title: string)
    requires title in m
    ensures ToggleOpen(m, title) == ToggleShown(m, title)
  {
  }

  // ---------------------------------------------------------------------
  // Fade-in timing

  const StaggerMs: nat := 50

  /** A top-level entry's transition delay in milliseconds. */
  function ItemDelay(itemIndex: nat, hasAnimated: bool): (ms: nat)
    ensures !hasAnimated ==> ms == 0
    ensures hasAnimated ==> ms == itemIndex * StaggerMs
  {
    if hasAnimated then itemIndex * StaggerMs else 0
  }

  /** A sub-item is shown once its folder is open and the fade-in has begun. */
  predicate SubVisible(isOpen: bool, hasAnimated: bool) {
    isOpen && hasAnimated
  }

  /** A sub-item's transition delay in milliseconds. */
  function SubDelay(itemIndex: nat, subIndex: nat, isOpen: bool, hasAnimated: bool): (ms: nat)
    ensures !SubVisible(isOpen, hasAnimated) ==> ms == 0
    ensures SubVisible(isOpen, hasAnimated) ==> ms == ItemDelay(itemIndex, hasAnimated) + (subIndex + 1) * StaggerMs
  {
    if SubVisible(isOpen, hasAnimated) then itemIndex * StaggerMs + (subIndex + 1) * StaggerMs else 0
  }

  /** Shown sub-items fade in after their folder, one after another. */
  lemma SubItemsStagger(itemIndex: nat, i: nat, j: nat, isOpen: bool, hasAnimated: bool)
    requires SubVisible(isOpen, hasAnimated) && i < j
    ensures ItemDelay(itemIndex, hasAnimated) < SubDelay(itemIndex, i, isOpen, hasAnimated)
    ensures SubDelay(itemIndex, i, isOpen, hasAnimated) + (j - i) * StaggerMs == SubDelay(itemIndex, j, isOpen, hasAnimated)
  {
  }

  class SuiteNav {
    const items: seq<NavItem>
    var openStates: map<string, bool>
    var hasAnimated: bool

    constructor(items: seq<NavItem>)
      ensures this.items == items && !hasAnimated
      ensures forall t :: t in openStates <==> exists item :: item in items && IsFolder(item) && item.title == t
      ensures forall item :: item in items && IsFolder(item) ==> IsOpen(openStates, item.title)
    {
      this.items := items;
      var m := InitialOpenStates(items);
      openStates := m;
      hasAnimated := false;
    }

    /** The timer that starts the fade-in. */
    method FinishAnimation()
      modifies this`hasAnimated
      ensures hasAnimated
    {
      hasAnimated := true;
    }

    /** toggleOpen, as the collapsible calls it, with the corrected rule:
        the folder's shown state flips. On every folder the initialiser
        recorded this is what the code does (ToggleAgreesOnInitialFolders). */
    method Toggle(title: string)
      modifies this`openStates
      ensures openStates == ToggleShown(old(openStates), title)
      ensures IsOpen(openStates, title) == !IsOpen(old(openStates), title)
      ensures forall t :: t != title ==> IsOpen(openStates, t) == IsOpen(old(openStates), t)
      ensures title in old(openStates) ==> openStates == ToggleOpen(old(openStates), title)
    {
      var shown := if title in openStates then openStates[title] else true;
      openStates := openStates[title := !shown];
    }
  }
}
