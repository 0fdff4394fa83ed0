/** The submission form (components/marketplace/PromptSubmissionForm.tsx):
    the list fields the author edits one entry at a time, the client-side
    schema, and the submit handler with its CAPTCHA gate. */
module SubmissionForm {
  import opened Common
  import opened CatalogTypes
  import opened SubmitRoute

  const MaxFormTags: nat := 5
  const CaptchaMissing: string := "Please complete the CAPTCHA verification"
  const SubmitFailed: string := "Submission failed. Please try again."
  const NetworkError: string := "Network error. Please try again."

  // ---------------------------------------------------------------------
  // List editing

  /** `list.filter((_, i) => i !== index)`. */
  function RemoveIndex<T>(s: seq<T>, index: int): (r: seq<T>)
    ensures 0 <= index < |s| ==> |r| == |s| - 1
    ensures !(0 <= index < |s|) ==> r == s
  {
    if |s| == 0 then []
    else if index == 0 then s[1..]
    else [s[0]] + RemoveIndex(s[1..], index - 1)
  }

  /** Removal keeps every other entry, in order. */
  lemma {:induction false} RemoveIndexSlices<T>(s: seq<T>, index: int)
    requires 0 <= index < |s|
    ensures RemoveIndex(s, index) == s[..index] + s[index + 1..]
  {
    if index > 0 {
      var t := s[1..];
      RemoveIndexSlices(t, index - 1);
      assert RemoveIndex(s, index) == [s[0]] + (t[..index - 1] + t[index..]);
      assert t[..index - 1] == s[1..index] && t[index..] == s[index + 1..];
      assert [s[0]] + s[1..index] == s[..index];
    }
  }

  // ---------------------------------------------------------------------
  // The client schema and the request it sends

  /** The form's values as the client schema reads them. The inputs are
      typed (text boxes give strings, the number inputs numbers, the check
      box a boolean); `None` is a value that is not set, such as the input
      of a section another format hides. */
  datatype FormValues = FormValues(
    title: Option<string>,
    format: Option<string>,
    description: Option<string>,
    content: Option<string>,
    inputVariables: Option<seq<string>>,
    systemPrompt: Option<string>,
    temperature: Option<real>,
    maxTokens: Option<real>,
    skillContent: Option<string>,
    businessArea: Option<string>,
    targetPlatform: Option<seq<string>>,
    mcpTools: Option<seq<string>>,
    tags: Option<seq<string>>,
    submitterName: Option<string>,
    submitterEmail: Option<string>,
    agreeToTerms: Option<bool>)

  /** The client's own schema: the same bounds as the endpoint, but any
      non-empty business area and no CAPTCHA token. */
  predicate ClientAcceptable(values: FormValues, emailOk: string -> bool) {
    && values.title.Some? && 1 <= |values.title.value| <= MaxTitle
    && values.format.Some? && ParseFormat(values.format.value).Some?
    && values.description.Some? && 1 <= |values.description.value| <= MaxDescription
    && (values.content.Some? ==> |values.content.value| <= MaxContent)
    && (values.systemPrompt.Some? ==> |values.systemPrompt.value| <= MaxContent)
    && (values.temperature.Some? ==> 0.0 <= values.temperature.value <= 1.0)
    && (values.maxTokens.Some? ==> 1.0 <= values.maxTokens.value <= MaxTokensLimit as real)
    && (values.skillContent.Some? ==> |values.skillContent.value| <= MaxSkillContent)
    && values.businessArea.Some? && |values.businessArea.value| >= 1
    && (values.targetPlatform.Some? ==> forall n :: n in values.targetPlatform.value ==> ParsePlatform(n).Some?)
    && (values.tags.Some? ==> |values.tags.value| <= MaxFormTags)
    && values.submitterName.Some? && |values.submitterName.value| >= 1
    && values.submitterEmail.Some? && emailOk(values.submitterEmail.value) && |values.submitterEmail.value| >= 1
    && values.agreeToTerms == Some(true)
  }

  function BoolJson(o: Option<bool>): Option<Json> {
    if o.Some? then Some(JBool(o.value)) else None
  }

  /** The member under `key` of the request body: `JSON.stringify` of the
      values with the token added, which leaves out every value not set. */
  function Field(values: FormValues, token: string, key: string): Option<Json> {
    match key
    case "title" => TextJson(values.title)
    case "format" => TextJson(values.format)
    case "description" => TextJson(values.description)
    case "content" => TextJson(values.content)
    case "inputVariables" => TextsJson(values.inputVariables)
    case "systemPrompt" => TextJson(values.systemPrompt)
    case "temperature" => NumberJson(values.temperature)
    case "maxTokens" => NumberJson(values.maxTokens)
    case "skillContent" => TextJson(values.skillContent)
    case "businessArea" => TextJson(values.businessArea)
    case "targetPlatform" => TextsJson(values.targetPlatform)
    case "mcpTools" => TextsJson(values.mcpTools)
    case "tags" => TextsJson(values.tags)
    case "submitterName" => TextJson(values.submitterName)
    case "submitterEmail" => TextJson(values.submitterEmail)
    case "agreeToTerms" => BoolJson(values.agreeToTerms)
    case "turnstileToken" => Some(JString(token))
    case _ => None
  }

  const FieldNames: set<string> :=
    {"title", "format", "description", "content", "inputVariables", "systemPrompt", "temperature",
     "maxTokens", "skillContent", "businessArea", "targetPlatform", "mcpTools", "tags", "submitterName",
     "submitterEmail", "agreeToTerms", "turnstileToken"}

  /** The JSON body the form posts. */
  function Encode(values: FormValues, token: string): Json {
    JObject(map key | key in FieldNames && Field(values, token, key).Some? :: Field(values, token, key).value)
  }

  /** What the endpoint's schema reads of a body the form posts. */
  function Sent(values: FormValues, token: string): Body {
    Body(TextJson(values.title), TextJson(values.format), TextJson(values.description),
         TextJson(values.content), TextsJson(values.inputVariables), TextJson(values.systemPrompt),
         NumberJson(values.temperature), NumberJson(values.maxTokens), TextJson(values.skillContent),
         TextJson(values.businessArea), TextsJson(values.targetPlatform), TextsJson(values.mcpTools),
         TextsJson(values.tags), TextJson(values.submitterName), TextJson(values.submitterEmail),
         BoolJson(values.agreeToTerms), Some(JString(token)))
  }

  /** Each set value reaches the endpoint under its own key, and an unset
      one is absent there. */
  lemma EncodeReadBack(values: FormValues, token: string)
    ensures BodyOf(Encode(values, token).members) == Sent(values, token)
  {
    EncodeReadsBasic(values, token);
    EncodeReadsContent(values, token);
    EncodeReadsClassification(values, token);
    EncodeReadsSubmitter(values, token);
  }

  lemma EncodeReadsBasic(values: FormValues, token: string)
    ensures var b := BodyOf(Encode(values, token).members);
      b.title == TextJson(values.title) && b.format == TextJson(values.format)
      && b.description == TextJson(values.description)
  {
    MemberOfEncode(values, token, "title");
    MemberOfEncode(values, token, "format");
    MemberOfEncode(values, token, "description");
  }

  lemma EncodeReadsContent(values: FormValues, token: string)
    ensures var b := BodyOf(Encode(values, token).members);
      b.content == TextJson(values.content) && b.inputVariables == TextsJson(values.inputVariables)
      && b.systemPrompt == TextJson(values.systemPrompt) && b.temperature == NumberJson(values.temperature)
      && b.maxTokens == NumberJson(values.maxTokens) && b.skillContent == TextJson(values.skillContent)
  {
    MemberOfEncode(values, token, "content");
    MemberOfEncode(values, token, "inputVariables");
    MemberOfEncode(values, token, "systemPrompt");
    MemberOfEncode(values, token, "temperature");
    MemberOfEncode(values, token, "maxTokens");
    MemberOfEncode(values, token, "skillContent");
  }

  lemma EncodeReadsClassification(values: FormValues, token: string)
    ensures var b := BodyOf(Encode(values, token).members);
      b.businessArea == TextJson(values.businessArea) && b.targetPlatform == TextsJson(values.targetPlatform)
      && b.mcpTools == TextsJson(values.mcpTools) && b.tags == TextsJson(values.tags)
  {
    MemberOfEncode(values, token, "businessArea");
    MemberOfEncode(values, token, "targetPlatform");
    MemberOfEncode(values, token, "mcpTools");
    MemberOfEncode(values, token, "tags");
  }

  lemma EncodeReadsSubmitter(values: FormValues, token: string)
    ensures var b := BodyOf(Encode(values, token).members);
      b.submitterName == TextJson(values.submitterName) && b.submitterEmail == TextJson(values.submitterEmail)
      && b.agreeToTerms == BoolJson(values.agreeToTerms) && b.turnstileToken == Some(JString(token))
  {
    MemberOfEncode(values, token, "submitterName");
    MemberOfEncode(values, token, "submitterEmail");
    MemberOfEncode(values, token, "agreeToTerms");
    MemberOfEncode(values, token, "turnstileToken");
  }

  lemma MemberOfEncode(values: FormValues, token: string, key: string)
    requires key in FieldNames
    ensures Member(Encode(values, token).members, key) == Field(values, token, key)
  {
  }

  lemma StringsJsonText(xs: seq<string>)
    ensures AllText(StringsJson(xs)) && |StringsJson(xs)| == |xs|
  {
    forall j | j in StringsJson(xs) ensures j.JString? {
      var k :| 0 <= k < |xs| && StringsJson(xs)[k] == j;
    }
  }

  /** A body the form accepts has every field of the type the endpoint
      expects, so the endpoint never stops at a type error on it. */
  lemma FormRequestShaped(values: FormValues, emailOk: string -> bool, token: string)
    requires ClientAcceptable(values, emailOk)
    ensures Shaped(BodyOf(Encode(values, token).members))
  {
    EncodeReadBack(values, token);
    if values.inputVariables.Some? { StringsJsonText(values.inputVariables.value); }
    if values.mcpTools.Some? { StringsJsonText(values.mcpTools.value); }
    if values.tags.Some? { StringsJsonText(values.tags.value); }
    if values.targetPlatform.Some? {
      var names := values.targetPlatform.value;
      forall j | j in StringsJson(names) ensures j.JString? && ParsePlatform(j.s).Some? {
        var k :| 0 <= k < |names| && StringsJson(names)[k] == j;
        assert names[k] in names;
      }
    }
  }

  /** Whatever the endpoint accepts from the form, the form accepts too. */
  lemma EndpointStricter(values: FormValues, token: string, rules: Rules)
    requires Acceptable(Encode(values, token), rules)
    ensures ClientAcceptable(values, rules.emailOk)
  {
    EncodeReadBack(values, token);
    if values.targetPlatform.Some? {
      var names := values.targetPlatform.value;
      forall n | n in names ensures ParsePlatform(n).Some? {
        var k :| 0 <= k < |names| && names[k] == n;
        assert StringsJson(names)[k] in StringsJson(names);
      }
    }
  }

  /** The form lets through a business area the endpoint refuses. */
  lemma FormLooserOnArea(values: FormValues, token: string, rules: Rules)
    requires ClientAcceptable(values, rules.emailOk)
    requires values.businessArea.value !in rules.promptIds && values.businessArea.value !in rules.skillIds
    ensures !Acceptable(Encode(values, token), rules)
  {
    EncodeReadBack(values, token);
  }

  // ---------------------------------------------------------------------
  // The form's state

  datatype SubmitResult = SubmitResult(success: bool, message: string, prUrl: Option<string>)

  /** The JSON the endpoint answers with, or a request that never completed. */
  datatype ServerReply =
    | Replied(success: bool, message: string, error: Option<string>, prUrl: Option<string>)
    | NetworkFailure

  /** `defaultValues`: the four lists empty, every other field unset. */
  const DefaultValues: FormValues :=
    FormValues(None, None, None, None, Some([]), None, None, None, None, None, Some([]), Some([]), Some([]),
               None, None, None)

  class FormState {
    /** The registered inputs as typed or selected; the four list fields
        are kept apart, in the fields below. */
    var entered: FormValues
    var tags: seq<string>
    var inputVariables: seq<string>
    var mcpTools: seq<string>
    var targetPlatform: seq<string>
    var tagInput: string
    var varInput: string
    var mcpToolInput: string
    var turnstileToken: string
    var isSubmitting: bool
    var result: Option<SubmitResult>

    ghost predicate Valid()
      reads this
    {
      |tags| <= MaxFormTags
    }

    constructor()
      ensures Valid()
      ensures entered == DefaultValues
      ensures tags == [] && inputVariables == [] && mcpTools == [] && targetPlatform == []
      ensures tagInput == "" && varInput == "" && mcpToolInput == "" && turnstileToken == ""
      ensures !isSubmitting && result == None
    {
      entered := DefaultValues;
      tags, inputVariables, mcpTools, targetPlatform := [], [], [], [];
      tagInput, varInput, mcpToolInput, turnstileToken := "", "", "", "";
      isSubmitting, result := false, None;
    }

    /** addTag: only a non-blank entry, and only below five tags; the
        input is cleared only when the tag is added. */
    method AddTag()
      requires Valid()
      modifies this`tags, this`tagInput
      ensures Valid()
      ensures Trim(old(tagInput)) != "" && |old(tags)| < MaxFormTags ==>
        tags == old(tags) + [Trim(old(tagInput))] && tagInput == ""
      ensures !(Trim(old(tagInput)) != "" && |old(tags)| < MaxFormTags) ==>
        tags == old(tags) && tagInput == old(tagInput)
    {
      var entry := Trim(tagInput);
      if entry != "" && |tags| < MaxFormTags {
        tags := tags + [entry];
        tagInput := "";
      }
    }

    /** removeTag. */
    method RemoveTag(index: int)
      requires Valid()
      modifies this`tags
      ensures Valid()
      ensures tags == RemoveIndex(old(tags), index)
    {
      tags := RemoveIndex(tags, index);
    }

    /** addVariable: a non-blank entry is added, with no limit. */
    method AddVariable()
      modifies this`inputVariables, this`varInput
      ensures Trim(old(varInput)) != "" ==> inputVariables == old(inputVariables) + [Trim(old(varInput))] && varInput == ""
      ensures Trim(old(varInput)) == "" ==> inputVariables == old(inputVariables) && varInput == old(varInput)
    {
      var entry := Trim(varInput);
      if entry != "" {
        inputVariables := inputVariables + [entry];
        varInput := "";
      }
    }

    /** removeVariable. */
    method RemoveVariable(index: int)
      modifies this`inputVariables
      ensures inputVariables == RemoveIndex(old(inputVariables), index)
    {
      inputVariables := RemoveIndex(inputVariables, index);
    }

    /** addMcpTool: a non-blank entry is added, with no limit. */
    method AddMcpTool()
      modifies this`mcpTools, this`mcpToolInput
      ensures Trim(old(mcpToolInput)) != "" ==> mcpTools == old(mcpTools) + [Trim(old(mcpToolInput))] && mcpToolInput == ""
      ensures Trim(old(mcpToolInput)) == "" ==> mcpTools == old(mcpTools) && mcpToolInput == old(mcpToolInput)
    {
      var entry := Trim(mcpToolInput);
      if entry != "" {
        mcpTools := mcpTools + [entry];
        mcpToolInput := "";
      }
    }

    /** removeMcpTool. */
    method RemoveMcpTool(index: int)
      modifies this`mcpTools
      ensures mcpTools == RemoveIndex(old(mcpTools), index)
    {
      mcpTools := RemoveIndex(mcpTools, index);
    }

    /** togglePlatform. */
    method TogglePlatform(platform: string)
      modifies this`targetPlatform
      ensures targetPlatform == Toggle(old(targetPlatform), platform)
    {
      if platform in targetPlatform {
        targetPlatform := Filter(targetPlatform, Other(platform));
      } else {
        targetPlatform := targetPlatform + [platform];
      }
    }

    /** The check box of a suggested MCP tool. */
    method ToggleMcpTool(tool: string)
      modifies this`mcpTools
      ensures mcpTools == Toggle(old(mcpTools), tool)
    {
      if tool in mcpTools {
        mcpTools := Filter(mcpTools, Other(tool));
      } else {
        mcpTools := mcpTools + [tool];
      }
    }

    /** The author types or selects a registered input: `entered` becomes
        what the inputs now hold. */
    method Enter(values: FormValues)
      modifies this`entered
      ensures entered == values
    {
      entered := values;
    }

    /** The values `handleSubmit` passes on: the registered inputs, with
        the list fields the handlers above keep. */
    function Values(): (r: FormValues)
      reads this
      ensures r.tags == Some(tags) && r.inputVariables == Some(inputVariables)
      ensures r.mcpTools == Some(mcpTools) && r.targetPlatform == Some(targetPlatform)
      ensures r.title == entered.title && r.format == entered.format && r.description == entered.description
      ensures r.content == entered.content && r.systemPrompt == entered.systemPrompt
      ensures r.temperature == entered.temperature && r.maxTokens == entered.maxTokens
      ensures r.skillContent == entered.skillContent && r.businessArea == entered.businessArea
      ensures r.submitterName == entered.submitterName && r.submitterEmail == entered.submitterEmail
      ensures r.agreeToTerms == entered.agreeToTerms
    {
      entered.(tags := Some(tags), inputVariables := Some(inputVariables), mcpTools := Some(mcpTools),
              targetPlatform := Some(targetPlatform))
    }

    /** handleSubmit then onSubmit: the form values go out only when the
        client schema accepts them and a CAPTCHA token is present; the
        reply sets the result, and a success resets the list fields. */
    method Submit(emailOk: string -> bool, reply: ServerReply) returns (sent: Option<Json>)
      requires Valid()
      modifies this
      ensures Valid()
      ensures !ClientAcceptable(old(Values()), emailOk) ==>
        sent == None && result == old(result) && tags == old(tags)
      ensures ClientAcceptable(old(Values()), emailOk) && old(turnstileToken) == "" ==>
        sent == None && result == Some(SubmitResult(false, CaptchaMissing, None)) && tags == old(tags)
      ensures ClientAcceptable(old(Values()), emailOk) && old(turnstileToken) != "" ==>
        sent == Some(Encode(old(Values()), old(turnstileToken))) && !isSubmitting
      ensures sent.Some? ==> TagIssues(BodyOf(sent.value.members).tags) == []
      ensures sent.Some? && reply.Replied? && reply.success ==>
        result == Some(SubmitResult(true, reply.message, reply.prUrl)) && Values() == DefaultValues
      ensures sent.Some? && reply.Replied? && !reply.success ==>
        result == Some(SubmitResult(false, if StringOn(reply.error) then reply.error.value else SubmitFailed, None))
        && tags == old(tags)
      ensures sent.Some? && reply.NetworkFailure? ==> result == Some(SubmitResult(false, NetworkError, None))
      ensures turnstileToken == old(turnstileToken)
      ensures !(sent.Some? && reply.Replied? && reply.success) ==>
        entered == old(entered) && tags == old(tags) && inputVariables == old(inputVariables) && mcpTools == old(mcpTools)
        && targetPlatform == old(targetPlatform)
      ensures tagInput == old(tagInput) && varInput == old(varInput) && mcpToolInput == old(mcpToolInput)
      ensures sent.None? ==> isSubmitting == old(isSubmitting)
    {
      var data := Values();
      if !ClientAcceptable(data, emailOk) {
        return None;
      }
      if turnstileToken == "" {
        result := Some(SubmitResult(false, CaptchaMissing, None));
        return None;
      }
      EncodeReadBack(data, turnstileToken);
      StringsJsonText(tags);
      isSubmitting := true;
      result := None;
      sent := Some(Encode(data, turnstileToken));
      Receive(reply);
    }

    /** The reply to a sent form: the result is set, a success resets every
        registered input to its default (`reset()`), and the form is no
        longer submitting; the entry boxes and the token are React state
        that `reset()` does not reach. */
    method Receive(reply: ServerReply)
      requires Valid()
      modifies this
      ensures Valid()
      ensures reply.Replied? && reply.success ==>
        result == Some(SubmitResult(true, reply.message, reply.prUrl))
        && entered == DefaultValues && tags == [] && inputVariables == [] && mcpTools == [] && targetPlatform == []
      ensures reply.Replied? && !reply.success ==>
        result == Some(SubmitResult(false, if StringOn(reply.error) then reply.error.value else SubmitFailed, None))
      ensures reply.NetworkFailure? ==> result == Some(SubmitResult(false, NetworkError, None))
      ensures !(reply.Replied? && reply.success) ==>
        entered == old(entered) && tags == old(tags) && inputVariables == old(inputVariables) && mcpTools == old(mcpTools)
        && targetPlatform == old(targetPlatform)
      ensures tagInput == old(tagInput) && varInput == old(varInput) && mcpToolInput == old(mcpToolInput)
      ensures turnstileToken == old(turnstileToken) && !isSubmitting
    {
      match reply {
        case Replied(success, message, error, prUrl) =>
          if success {
            result := Some(SubmitResult(true, message, prUrl));
            entered := DefaultValues;
            tags, inputVariables, mcpTools, targetPlatform := [], [], [], [];
          } else {
            result := Some(SubmitResult(false, if StringOn(error) then error.value else SubmitFailed, None));
          }
        case NetworkFailure =>
          result := Some(SubmitResult(false, NetworkError, None));
      }
      isSubmitting := false;
    }
  }
}
