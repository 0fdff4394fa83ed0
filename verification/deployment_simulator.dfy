/** The deployment simulator of the learning platform
    (netsuite-marketplace/suitecloud-learning-platform/components/interactive/DeploymentSimulator.tsx):
    five steps that a run moves, one at a time and in order, from pending
    through running to completed. */
module DeploymentSimulator {
  datatype Status = Pending | Running | Completed | Failed

  datatype Step = Step(id: string, title: string, description: string, status: Status)

  /** The five steps a simulator starts with, all pending. */
  function InitialSteps(): (r: seq<Step>)
    ensures |r| == 5
    ensures forall i :: 0 <= i < |r| ==> r[i].status == Pending
  {
    [ Step("validate", "Validate Project", "Checking project structure and dependencies", Pending),
      Step("build", "Build Project", "Compiling TypeScript and bundling files", Pending),
      Step("bundle", "Bundle Files", "Packaging files according to deploy.xml", Pending),
      Step("upload", "Upload to NetSuite", "Uploading files and creating objects", Pending),
      Step("install", "Install SuiteApp", "Installing SuiteApp in your account", Pending) ]
  }

  /** The success banner shows when every step is completed. */
  predicate AllCompleted(steps: seq<Step>) {
    forall i :: 0 <= i < |steps| ==> steps[i].status == Completed
  }

  /** What the list shows while step `i` has the given status: the earlier
      steps completed, the later ones as they were before the run. */
  function Progressed(before: seq<Step>, i: nat, status: Status): (r: seq<Step>)
    ensures |r| == |before|
    ensures forall j :: 0 <= j < |r| ==> r[j] == if j < i then before[j].(status := Completed)
      else if j == i then before[j].(status := status) else before[j]
  {
    seq(|before|, j requires 0 <= j < |before| =>
      if j < i then before[j].(status := Completed)
      else if j == i then before[j].(status := status) else before[j])
  }

  /** One state update of the run: `map` changes the step at index i only. */
  function WithStatus(steps: seq<Step>, i: nat, status: Status): (r: seq<Step>)
    requires i < |steps|
    ensures |r| == |steps| && r[i].status == status
    ensures forall j :: 0 <= j < |r| && j != i ==> r[j] == steps[j]
  {
    steps[i := steps[i].(status := status)]
  }

  /** The banner is off at the start. */
  lemma InitialNotCompleted()
    ensures !AllCompleted(InitialSteps())
  {
    assert InitialSteps()[0].status == Pending;
  }

  class Simulator {
    var steps: seq<Step>
    var isRunning: bool
    var currentStepIndex: int

    constructor()
      ensures steps == InitialSteps() && !isRunning && currentStepIndex == -1
    {
      steps := InitialSteps();
      isRunning := false;
      currentStepIndex := -1;
    }

    /** runDeployment, offered only while no run is going on. `shown` is
        every list the run displays, in order: step i running, then step i
        completed. */
    method RunDeployment() returns (shown: seq<seq<Step>>)
      requires !isRunning
      modifies this
      ensures |shown| == 2 * |old(steps)|
      ensures forall i :: 0 <= i < |old(steps)| ==>
        shown[2 * i] == Progressed(old(steps), i, Running) && shown[2 * i + 1] == Progressed(old(steps), i, Completed)
      ensures steps == Progressed(old(steps), |old(steps)|, Completed) && AllCompleted(steps)
      ensures currentStepIndex == |steps| && !isRunning
    {
      isRunning := true;
      currentStepIndex := 0;
      shown := [];
      ghost var before := steps;
      var i := 0;
      while i < |steps|
        invariant 0 <= i <= |steps| && |steps| == |before|
        invariant forall j :: 0 <= j < i ==> steps[j] == before[j].(status := Completed)
        invariant forall j :: i <= j < |steps| ==> steps[j] == before[j]
        invariant |shown| == 2 * i
        invariant forall k :: 0 <= k < i ==>
          shown[2 * k] == Progressed(before, k, Running) && shown[2 * k + 1] == Progressed(before, k, Completed)
        invariant currentStepIndex == i && isRunning
      {
        steps := WithStatus(steps, i, Running);
        assert steps == Progressed(before, i, Running);
        shown := shown + [steps];
        steps := WithStatus(steps, i, Completed);
        assert steps == Progressed(before, i, Completed);
        shown := shown + [steps];
        currentStepIndex := i + 1;
        i := i + 1;
      }
      isRunning := false;
      assert steps == Progressed(before, |before|, Completed);
    }

    /** reset, offered only while no run is going on. */
    method Reset()
      requires !isRunning
      modifies this
      ensures steps == InitialSteps() && !isRunning && currentStepIndex == -1
      ensures !AllCompleted(steps)
    {
      steps := InitialSteps();
      isRunning := false;
      currentStepIndex := -1;
      InitialNotCompleted();
    }
  }
}
