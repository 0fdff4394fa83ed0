/** The learning-path progress panel (components/learning/ProgressTracker.tsx):
    one record per module, kept in the browser's storage under a key made
    from the path id, and the overall percentage of completed modules. */
module ProgressTracker {
  import opened Common
  import opened LearningTypes

  datatype UserProgress = UserProgress(pathId: string, moduleId: string, completed: bool, progress: real, lastAccessed: string)

  /** The percentage as JavaScript computes it; a path with no modules but
      stored records divides by zero. */
  datatype Percent = Whole(n: int) | NotANumber | Infinite

  function StorageKey(pathId: string): (r: string)
    ensures StartsWith(r, "progress-") && r[9..] == pathId
  {
    "progress-" + pathId
  }

  /** Different paths are stored under different keys. */
  lemma StorageKeyInjective(a: string, b: string)
    requires StorageKey(a) == StorageKey(b)
    ensures a == b
  {
    assert a == StorageKey(a)[9..];
  }

  /** One record per module in module order, all with the same state. */
  function Fresh(pathId: string, modules: seq<Module>, completed: bool, progress: real, now: string): (r: seq<UserProgress>)
    ensures |r| == |modules|
    ensures forall i :: 0 <= i < |r| ==> r[i] == UserProgress(pathId, modules[i].id, completed, progress, now)
  {
    seq(|modules|, i requires 0 <= i < |modules| => UserProgress(pathId, modules[i].id, completed, progress, now))
  }

  /** updateProgress on the list: every record of that module takes the new
      state; the others are kept. */
  function Updated(records: seq<UserProgress>, moduleId: string, completed: bool, value: real, now: string): (r: seq<UserProgress>)
    ensures |r| == |records|
    ensures forall i :: 0 <= i < |r| && records[i].moduleId != moduleId ==> r[i] == records[i]
    ensures forall i :: 0 <= i < |r| && records[i].moduleId == moduleId ==>
      r[i] == records[i].(completed := completed, progress := value, lastAccessed := now)
  {
    seq(|records|, i requires 0 <= i < |records| =>
      if records[i].moduleId == moduleId then records[i].(completed := completed, progress := value, lastAccessed := now)
      else records[i])
  }

  /** getModuleProgress: the first record of that module. */
  function ModuleProgress(records: seq<UserProgress>, moduleId: string): (r: Option<UserProgress>)
    ensures r.None? <==> forall i :: 0 <= i < |records| ==> records[i].moduleId != moduleId
    ensures r.Some? ==> exists i :: (0 <= i < |records| && records[i] == r.value && r.value.moduleId == moduleId
      && forall j :: 0 <= j < i ==> records[j].moduleId != moduleId)
  {
    if |records| == 0 then None
    else if records[0].moduleId == moduleId then Some(records[0])
    else
      var r := ModuleProgress(records[1..], moduleId);
      assert forall i :: 0 < i < |records| ==> records[i] == records[1..][i - 1];
      if r.Some? then
        var k :| 0 <= k < |records| - 1 && records[1..][k] == r.value && r.value.moduleId == moduleId &&
          forall j :: 0 <= j < k ==> records[1..][j].moduleId != moduleId;
        assert records[k + 1] == r.value;
        r
      else r
  }

  /** After an update, the module's first record carries the new state. */
  lemma UpdatedModuleProgress(records: seq<UserProgress>, moduleId: string, completed: bool, value: real, now: string)
    requires ModuleProgress(records, moduleId).Some?
    ensures var r := ModuleProgress(Updated(records, moduleId, completed, value, now), moduleId);
      r == Some(ModuleProgress(records, moduleId).value.(completed := completed, progress := value, lastAccessed := now))
  {
    var u := Updated(records, moduleId, completed, value, now);
    var before := ModuleProgress(records, moduleId).value;
    var i :| 0 <= i < |records| && records[i] == before && before.moduleId == moduleId &&
      forall j :: 0 <= j < i ==> records[j].moduleId != moduleId;
    var r := ModuleProgress(u, moduleId);
    var k :| 0 <= k < |u| && u[k] == r.value && r.value.moduleId == moduleId &&
      forall j :: 0 <= j < k ==> u[j].moduleId != moduleId;
    assert u[i].moduleId == moduleId;
    assert records[k].moduleId == moduleId;
    assert k == i;
  }

  predicate Done(p: UserProgress) {
    p.completed
  }

  function CompletedCount(records: seq<UserProgress>): (n: nat)
    ensures n <= |records|
  {
    Count(records, Done)
  }

  /** getOverallProgress. */
  function OverallProgress(path: Option<LearningPath>, records: seq<UserProgress>): (r: Percent)
    ensures path.None? || |records| == 0 ==> r == Whole(0)
    ensures path.Some? && |path.value.modules| > 0 && |records| > 0 ==>
      r == Whole(RoundedPercent(CompletedCount(records), |path.value.modules|))
    ensures path.Some? && |path.value.modules| == 0 && |records| > 0 ==>
      r == if CompletedCount(records) == 0 then NotANumber else Infinite
  {
    if path.None? || |records| == 0 then Whole(0)
    else
      var completed := CompletedCount(records);
      var modules := |path.value.modules|;
      if modules == 0 then (if completed == 0 then NotANumber else Infinite)
      else Whole(RoundedPercent(completed, modules))
  }

  /** The records of a fresh or reset path count no module as completed;
      after marking all complete every module is. */
  lemma FreshCounts(pathId: string, modules: seq<Module>, now: string)
    ensures CompletedCount(Fresh(pathId, modules, false, 0.0, now)) == 0
    ensures CompletedCount(Fresh(pathId, modules, true, 100.0, now)) == |modules|
  {
    var none := Fresh(pathId, modules, false, 0.0, now);
    var all := Fresh(pathId, modules, true, 100.0, now);
    if |Filter(none, Done)| > 0 {
      assert Filter(none, Done)[0] in Filter(none, Done);
    }
    FilterAll(all, Done);
  }

  /** Reset shows 0% and mark-all 100% on a path with modules. */
  lemma ResetAndMarkAllPercent(path: LearningPath, now: string)
    requires |path.modules| > 0
    ensures OverallProgress(Some(path), Fresh(path.id, path.modules, false, 0.0, now)) == Whole(0)
    ensures OverallProgress(Some(path), Fresh(path.id, path.modules, true, 100.0, now)) == Whole(100)
  {
    FreshCounts(path.id, path.modules, now);
  }

  class Tracker {
    const pathId: string
    const path: Option<LearningPath>
    var records: seq<UserProgress>
    var storage: map<string, seq<UserProgress>>
    var loaded: bool

    /** Once loaded, the stored list under the path's key is the list shown. */
    ghost predicate Valid()
      reads this
    {
      loaded ==> StorageKey(pathId) in storage && storage[StorageKey(pathId)] == records
    }

    constructor(pathId: string, paths: seq<LearningPath>, storage: map<string, seq<UserProgress>>)
      ensures Valid()
      ensures this.pathId == pathId && path == FindPath(paths, pathId)
      ensures records == [] && this.storage == storage && !loaded
    {
      this.pathId := pathId;
      path := FindPath(paths, pathId);
      records := [];
      this.storage := storage;
      loaded := false;
    }

    /** The load effect: a stored list is taken as it is; otherwise one
        fresh record per module of the path (none when the path is missing)
        is shown and stored. */
    method Load(now: string)
      modifies this
      ensures Valid() && loaded
      ensures StorageKey(pathId) in old(storage) ==> records == old(storage)[StorageKey(pathId)] && storage == old(storage)
      ensures StorageKey(pathId) !in old(storage) ==>
        && records == (if path.Some? then Fresh(pathId, path.value.modules, false, 0.0, now) else [])
        && storage == old(storage)[StorageKey(pathId) := records]
    {
      var key := StorageKey(pathId);
      if key in storage {
        records := storage[key];
      } else {
        records := if path.Some? then Fresh(pathId, path.value.modules, false, 0.0, now) else [];
        storage := storage[key := records];
      }
      loaded := true;
    }

    /** updateProgress: the list is replaced and written back. */
    method UpdateProgress(moduleId: string, completed: bool, value: real, now: string)
      requires Valid()
      modifies this`records, this`storage
      ensures Valid()
      ensures records == Updated(old(records), moduleId, completed, value, now)
      ensures storage == old(storage)[StorageKey(pathId) := records]
    {
      records := Updated(records, moduleId, completed, value, now);
      storage := storage[StorageKey(pathId) := records];
    }

    /** The reset button, shown only for a known path. */
    method Reset(now: string)
      requires Valid() && path.Some?
      modifies this`records, this`storage
      ensures Valid()
      ensures records == Fresh(pathId, path.value.modules, false, 0.0, now)
      ensures storage == old(storage)[StorageKey(pathId) := records]
    {
      records := Fresh(pathId, path.value.modules, false, 0.0, now);
      storage := storage[StorageKey(pathId) := records];
    }

    /** The mark-all-complete button, shown only for a known path. */
    method MarkAllComplete(now: string)
      requires Valid() && path.Some?
      modifies this`records, this`storage
      ensures Valid()
      ensures records == Fresh(pathId, path.value.modules, true, 100.0, now)
      ensures storage == old(storage)[StorageKey(pathId) := records]
    {
      records := Fresh(pathId, path.value.modules, true, 100.0, now);
      storage := storage[StorageKey(pathId) := records];
    }
  }
}
