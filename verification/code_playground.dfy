/** The code playground (components/interactive/CodePlayground.tsx): an
    editor whose run button reports either the caller's analysis or a
    built-in one that counts lines and names the module system. */
module CodePlayground {
  import opened Common
  import opened CatalogTypes

  const Analyzing: string := "\U{1F4CA} Analyzing code...\n"
  const SyntaxGood: string := "Syntax looks good!"
  const MixedLine: string := "\U{26A0}\U{FE0F}  Mixed module systems detected (both import and define)\n"
  const Es6Line: string := "\U{2713} Using ES6 module syntax\n"
  const AmdLine: string := "\U{2713} Using AMD module syntax\n"
  const AnalysisHead: string := "\U{2705} Code Analysis Complete\n\n"
  const LinesLabel: string := "\U{1F4DD} Lines of code: "
  const NoteLine: string := "\n\U{1F4A1} Note: This is a syntax viewer. Actual execution requires NetSuite environment.\n"
  const DeployLine: string := "\U{1F4DA} Deploy to NetSuite to test with live data."
  const SuccessHead: string := "\U{2705} Code analyzed successfully!\n\n"
  const ErrorHead: string := "\U{274C} Error: "

  datatype Template = Template(name: string, code: string)

  /** What a thrown value offers: an Error's message, or nothing. */
  datatype Thrown = ErrorWithMessage(message: string) | NonError

  /** The caller's `onRun` on the code: a returned value (none, or a
      string) or a throw. */
  datatype RunReply = Returned(result: Option<string>) | Threw(thrown: Thrown)

  datatype ModuleSystem = MixedModules | Es6 | Amd | NoModules

  /** The module system the code's text suggests. */
  function Classify(code: string): (r: ModuleSystem)
    ensures r == MixedModules <==> Contains(code, "import") && Contains(code, "define")
    ensures r == Es6 <==> Contains(code, "import") && !Contains(code, "define")
    ensures r == Amd <==> !Contains(code, "import") && Contains(code, "define")
    ensures r == NoModules <==> !Contains(code, "import") && !Contains(code, "define")
  {
    var hasImport := Contains(code, "import");
    var hasDefine := Contains(code, "define");
    if hasImport && hasDefine then MixedModules
    else if hasImport then Es6
    else if hasDefine then Amd
    else NoModules
  }

  /** `code.split('\n').length`: one more than the line breaks. */
  function LineCount(code: string): (n: nat)
    ensures n == CharCount(code, '\n') + 1
  {
    SplitCount(code, '\n');
    |Split(code, '\n')|
  }

  function ModuleLine(system: ModuleSystem): string {
    match system
    case MixedModules => MixedLine
    case Es6 => Es6Line
    case Amd => AmdLine
    case NoModules => ""
  }

  /** The first lines of the built-in analysis: the heading and the line count. */
  function LinesHeader(code: string): string {
    AnalysisHead + LinesLabel + NatToString(LineCount(code)) + "\n"
  }

  /** The built-in analysis text. */
  function Analysis(code: string): (r: string)
    ensures StartsWith(r, LinesHeader(code))
  {
    LinesHeader(code) + ModuleLine(Classify(code)) + NoteLine + DeployLine
  }

  /** The output a finished run shows. */
  function RunOutput(code: string, onRun: Option<RunReply>): (r: string)
    ensures onRun.None? ==> r == Analysis(code)
    ensures onRun.Some? && onRun.value.Returned? ==>
      r == SuccessHead + (if StringOn(onRun.value.result) then onRun.value.result.value else SyntaxGood)
    ensures onRun.Some? && onRun.value.Threw? ==>
      r == ErrorHead + (if onRun.value.thrown.ErrorWithMessage? then onRun.value.thrown.message else "Unknown error")
  {
    match onRun
    case None => Analysis(code)
    case Some(Returned(result)) =>
      SuccessHead + (if StringOn(result) then result.value else SyntaxGood)
    case Some(Threw(thrown)) =>
      ErrorHead + (match thrown case ErrorWithMessage(message) => message case NonError => "Unknown error")
  }

  /** The module line names both systems exactly when both words occur. */
  lemma AnalysisWarnsOnMixed(code: string)
    ensures Contains(code, "import") && Contains(code, "define") <==> ModuleLine(Classify(code)) == MixedLine
  {
    assert MixedLine != Es6Line && MixedLine != AmdLine && MixedLine != "";
  }

  /** `templates.find(t => t.name === name)`: the first template with that name. */
  function FindTemplate(templates: seq<Template>, name: string): (r: Option<Template>)
    ensures r.None? <==> forall t :: t in templates ==> t.name != name
    ensures r.Some? ==> exists k :: 0 <= k < |templates| && templates[k] == r.value && templates[k].name == name
                                   && forall j :: 0 <= j < k ==> templates[j].name != name
  {
    if |templates| == 0 then None
    else if templates[0].name == name then Some(templates[0])
    else
      var r := FindTemplate(templates[1..], name);
      assert forall i :: 1 <= i < |templates| ==> templates[i] == templates[1..][i - 1];
      r
  }

  class Playground {
    const templates: seq<Template>
    var code: string
    var output: string
    var isRunning: bool
    var selectedTemplate: string

    constructor(initialCode: string, templates: seq<Template>)
      ensures this.templates == templates && code == initialCode
      ensures output == "" && !isRunning && selectedTemplate == ""
    {
      this.templates := templates;
      code := initialCode;
      output := "";
      isRunning := false;
      selectedTemplate := "";
    }

    /** handleEditorChange: an undefined value keeps the code. */
    method HandleEditorChange(value: Option<string>)
      modifies this`code
      ensures code == if value.Some? then value.value else old(code)
    {
      if value.Some? {
        code := value.value;
      }
    }

    /** The start of handleRun: the run is on and shows that it is
        analysing. The code the timer later reads is the code of now. */
    method StartRun() returns (captured: string)
      modifies this`isRunning, this`output
      ensures isRunning && output == Analyzing && captured == code
    {
      isRunning := true;
      output := Analyzing;
      captured := code;
    }

    /** The timer of handleRun: the output is set and the run is over. */
    method FinishRun(captured: string, onRun: Option<RunReply>)
      modifies this`isRunning, this`output
      ensures output == RunOutput(captured, onRun) && !isRunning
    {
      if onRun.Some? {
        match onRun.value {
          case Returned(result) =>
            output := SuccessHead + (if StringOn(result) then result.value else SyntaxGood);
          case Threw(thrown) =>
            output := ErrorHead + (if thrown.ErrorWithMessage? then thrown.message else "Unknown error");
        }
      } else {
        var lines := LineCount(captured);
        var hasImport := Contains(captured, "import");
        var hasDefine := Contains(captured, "define");
        var feedback := AnalysisHead;
        feedback := feedback + LinesLabel + NatToString(lines) + "\n";
        assert feedback == LinesHeader(captured);
        if hasImport && hasDefine {
          feedback := feedback + MixedLine;
        } else if hasImport {
          feedback := feedback + Es6Line;
        } else if hasDefine {
          feedback := feedback + AmdLine;
        }
        assert feedback == LinesHeader(captured) + ModuleLine(Classify(captured));
        feedback := feedback + NoteLine;
        feedback := feedback + DeployLine;
        output := feedback;
      }
      isRunning := false;
    }

    /** handleTemplateSelect: a known template replaces the code and clears
        the output; an unknown name changes nothing. */
    method HandleTemplateSelect(templateName: string)
      modifies this`code, this`selectedTemplate, this`output
      ensures FindTemplate(templates, templateName).Some? ==>
        code == FindTemplate(templates, templateName).value.code && selectedTemplate == templateName && output == ""
      ensures FindTemplate(templates, templateName).None? ==>
        code == old(code) && selectedTemplate == old(selectedTemplate) && output == old(output)
    {
      var template := FindTemplate(templates, templateName);
      if template.Some? {
        code := template.value.code;
        selectedTemplate := templateName;
        output := "";
      }
    }
  }
}
