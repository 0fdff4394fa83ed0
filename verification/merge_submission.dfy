/** The maintainer script that merges an approved submission into the
    catalog file (scripts/merge-submission.js). The working directory is a
    store of files whose JSON has been read into records: a file is absent,
    unreadable, or parsed. */
module MergeSubmission {
  import opened Common
  import opened CatalogTypes

  datatype FileContent<T> = Parsed(value: T) | Garbled

  const MarketplacePath: string := "data/marketplace.json"

  /** The catalog after a merge: the submission added, then everything
      sorted newest first. */
  function Merged(prompts: seq<Prompt>, submission: Prompt): (r: seq<Prompt>)
    ensures |r| == |prompts| + 1
    ensures multiset(r) == multiset(prompts) + multiset{submission}
    ensures submission in r && forall p :: p in prompts ==> p in r
    ensures forall i, j :: 0 <= i < j < |r| ==> r[i].item.createdAt >= r[j].item.createdAt
  {
    var r := SortItems(prompts + [submission], Newest, PromptItem);
    assert submission in multiset(r);
    forall p | p in prompts ensures p in r {
      assert p in multiset(prompts + [submission]);
    }
    forall i, j | 0 <= i < j < |r| ensures r[i].item.createdAt >= r[j].item.createdAt {
      assert RankGe(SortKey(Newest, r[i].item), SortKey(Newest, r[j].item));
    }
    r
  }

  /** Ties keep catalog order: the prompts of one creation time `t` come in
      their catalog order, and the submission, when it has that time, after
      them. */
  lemma MergedTies(prompts: seq<Prompt>, submission: Prompt, t: int)
    ensures var q := Rank(t as real, 0.0);
      WithRank(Merged(prompts, submission), KeyOf(Newest, PromptItem), q)
      == WithRank(prompts, KeyOf(Newest, PromptItem), q) + (if submission.item.createdAt == t then [submission] else [])
  {
    var key, q := KeyOf(Newest, PromptItem), Rank(t as real, 0.0);
    SortItemsAppendStable(prompts, submission, Newest, PromptItem, q);
    assert key(submission) == SortKey(Newest, PromptItem(submission));
  }

  predicate HasId(prompts: seq<Prompt>, id: string) {
    exists p :: p in prompts && p.item.id == id
  }

  /** An id is in the merged catalog exactly when it was in the catalog or
      is the submission's. */
  lemma MergedIds(prompts: seq<Prompt>, submission: Prompt, id: string)
    ensures HasId(Merged(prompts, submission), id) <==> HasId(prompts, id) || submission.item.id == id
  {
    var r := Merged(prompts, submission);
    if HasId(r, id) {
      var p :| p in r && p.item.id == id;
      assert p in multiset(r);
      assert p in multiset(prompts) || p == submission;
    }
  }

  /** The submission file and the catalog are readable and the id is new. */
  predicate Mergeable(submissions: map<string, FileContent<Prompt>>, marketplace: Option<FileContent<MarketplaceData>>, path: string) {
    && path in submissions && submissions[path].Parsed?
    && marketplace.Some? && marketplace.value.Parsed?
    && !HasId(marketplace.value.value.prompts, submissions[path].value.item.id)
  }

  class Workspace {
    var submissions: map<string, FileContent<Prompt>>
    var marketplace: Option<FileContent<MarketplaceData>>

    constructor(submissions: map<string, FileContent<Prompt>>, marketplace: Option<FileContent<MarketplaceData>>)
      ensures this.submissions == submissions && this.marketplace == marketplace
    {
      this.submissions := submissions;
      this.marketplace := marketplace;
    }

    /** mergeSubmission: exit code 1, and the catalog file untouched,
        when the submission or the catalog is missing or unreadable or the
        id is taken; otherwise the merged catalog is written and the exit
        code is 0. */
    method Merge(path: string) returns (exitCode: int)
      modifies this
      ensures submissions == old(submissions)
      ensures exitCode == 0 || exitCode == 1
      ensures exitCode == 0 <==> Mergeable(old(submissions), old(marketplace), path)
      ensures exitCode == 1 ==> marketplace == old(marketplace)
      ensures exitCode == 0 ==>
        var catalog := old(marketplace).value.value;
        marketplace == Some(Parsed(MarketplaceData(Merged(catalog.prompts, old(submissions)[path].value), catalog.skills)))
    {
      if path !in submissions {
        return 1;
      }
      if submissions[path].Garbled? {
        return 1;
      }
      var submission := submissions[path].value;
      if marketplace.None? || marketplace.value.Garbled? {
        return 1;
      }
      var catalog := marketplace.value.value;
      var existing := catalog.prompts;
      if exists p :: p in existing && p.item.id == submission.item.id {
        return 1;
      }
      var prompts := existing + [submission];
      prompts := SortItems(prompts, Newest, PromptItem);
      assert prompts == Merged(existing, submission);
      marketplace := Some(Parsed(MarketplaceData(prompts, catalog.skills)));
      exitCode := 0;
    }

    /** The script's entry: the first argument names the submission; a
        missing or empty one is a usage error. */
    method Run(args: seq<string>) returns (exitCode: int)
      modifies this
      ensures submissions == old(submissions)
      ensures (|args| == 0 || args[0] == "") ==> exitCode == 1 && marketplace == old(marketplace)
      ensures exitCode == 1 ==> marketplace == old(marketplace)
      ensures exitCode == 0 <==> |args| > 0 && args[0] != "" && Mergeable(old(submissions), old(marketplace), args[0])
      ensures exitCode == 0 ==>
        var catalog := old(marketplace).value.value;
        marketplace == Some(Parsed(MarketplaceData(Merged(catalog.prompts, old(submissions)[args[0]].value), catalog.skills)))
    {
      if |args| == 0 || args[0] == "" {
        return 1;
      }
      exitCode := Merge(args[0]);
    }
  }
}
