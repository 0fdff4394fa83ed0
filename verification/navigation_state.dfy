/** The sidebar's remembered folders (hooks/use-navigation-state.ts): a set
    of expanded folder ids, kept in the browser's storage under one key once
    the stored value has been loaded. A JavaScript Set keeps its members in
    insertion order, so the set is a sequence without duplicates. */
module NavigationState {
  import opened Common

  const StorageKey: string := "suiteprompt_nav_state"

  /** What the storage holds under the key, as `JSON.parse` reads it. */
  datatype Stored =
    | Absent
    | Blank
    | Unparsable
    | StringArray(items: seq<string>)
    | JsonString(text: string)
    | JsonNull
    | NotIterable

  /** The folders a stored value loads as; None when loading keeps the
      empty start (nothing stored, or an error that is caught). A stored
      string is iterated character by character, and `null` makes an empty
      set. */
  function Loaded(stored: Stored): (r: Option<seq<string>>)
    ensures r.Some? ==> NoDuplicates(r.value)
    ensures stored.StringArray? ==> r.Some? && forall x :: x in r.value <==> x in stored.items
    ensures r.None? <==> stored in {Absent, Blank, Unparsable, NotIterable}
  {
    match stored
    case StringArray(items) => Some(Dedupe(items))
    case JsonString(text) => Some(Dedupe(seq(|text|, i requires 0 <= i < |text| => [text[i]])))
    case JsonNull => Some([])
    case _ => None
  }

  class Navigation {
    var expanded: seq<string>
    var isHydrated: bool
    var hasInteracted: bool
    /** The value under StorageKey. */
    var storage: Stored

    /** The set has no duplicates, and once loaded the storage mirrors it. */
    ghost predicate Valid()
      reads this
    {
      NoDuplicates(expanded) && (isHydrated ==> storage == StringArray(expanded))
    }

    predicate IsExpanded(folderId: string)
      reads this
    {
      folderId in expanded
    }

    constructor(storage: Stored)
      ensures Valid()
      ensures expanded == [] && !isHydrated && !hasInteracted && this.storage == storage
    {
      expanded := [];
      isHydrated := false;
      hasInteracted := false;
      this.storage := storage;
    }

    /** The save effect: it writes the set only once loading is done. */
    method Save()
      requires NoDuplicates(expanded)
      modifies this`storage
      ensures Valid()
      ensures !isHydrated ==> storage == old(storage)
    {
      if isHydrated {
        storage := StringArray(expanded);
      }
    }

    /** The load effect: read the stored value, then mark loading done
        (even after an error); the save effect then writes the set back. */
    method Hydrate()
      requires Valid()
      modifies this
      ensures Valid() && isHydrated
      ensures Loaded(old(storage)).Some? ==> expanded == Loaded(old(storage)).value
      ensures Loaded(old(storage)).None? ==> expanded == old(expanded)
      ensures storage == StringArray(expanded)
      ensures hasInteracted == old(hasInteracted)
    {
      var loaded := Loaded(storage);
      if loaded.Some? {
        expanded := loaded.value;
      }
      isHydrated := true;
      Save();
    }

    /** toggleFolder: exactly that folder's membership flips. */
    method ToggleFolder(folderId: string, markInteracted: bool)
      requires Valid()
      modifies this`expanded, this`hasInteracted, this`storage
      ensures Valid()
      ensures expanded == Toggle(old(expanded), folderId)
      ensures IsExpanded(folderId) <==> !old(IsExpanded(folderId))
      ensures forall other :: other != folderId ==> (IsExpanded(other) <==> old(IsExpanded(other)))
      ensures hasInteracted == (old(hasInteracted) || markInteracted)
      ensures !isHydrated ==> storage == old(storage)
    {
      if markInteracted {
        hasInteracted := true;
      }
      ToggleNoDuplicates(expanded, folderId);
      expanded := Toggle(expanded, folderId);
      Save();
    }

    /** resetNavigation: the set empties and the key is removed, after which
        the save effect writes the empty set once loading is done. */
    method ResetNavigation()
      requires Valid()
      modifies this`expanded, this`storage
      ensures Valid()
      ensures expanded == []
      ensures forall folderId :: !IsExpanded(folderId)
      ensures storage == if isHydrated then StringArray([]) else Absent
    {
      expanded := [];
      storage := Absent;
      Save();
    }
  }
}
