/** The learning platform's content records (types/index.ts), reduced to
    the fields the modelled components read. */
module LearningTypes {
  import opened Common

  datatype Module = Module(id: string, title: string, description: string)

  datatype LearningPath = LearningPath(id: string, title: string, description: string, modules: seq<Module>)

  datatype Concept = Concept(id: string, title: string, category: string, simpleExplanation: string)

  /** `paths.find(p => p.id === pathId)`: the first path with that id. */
  function FindPath(paths: seq<LearningPath>, pathId: string): (r: Option<LearningPath>)
    ensures r.None? <==> forall p :: p in paths ==> p.id != pathId
    ensures r.Some? ==> exists k :: 0 <= k < |paths| && paths[k] == r.value && paths[k].id == pathId
                                   && forall j :: 0 <= j < k ==> paths[j].id != pathId
  {
    if |paths| == 0 then None
    else if paths[0].id == pathId then Some(paths[0])
    else
      var r := FindPath(paths[1..], pathId);
      assert forall i :: 1 <= i < |paths| ==> paths[i] == paths[1..][i - 1];
      r
  }
}
