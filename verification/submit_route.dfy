/** The prompt-submission endpoint (app/api/prompts/submit/route.ts): the
    request schema with its field rules and cross-field rule, the CAPTCHA
    check, and the POST handler that turns a valid submission into a
    review pull request and maps every failure to a status code.

    The request body arrives as the JSON value `request.json()` parsed;
    the schema reads the keys it names and strips every other key. */
module SubmitRoute {
  import opened Common
  import opened CatalogTypes
  import opened PromptHelpers
  import opened GitHub

  const MaxTitle: nat := 100
  const MaxDescription: nat := 500
  const MaxContent: nat := 5000
  const MaxSkillContent: nat := 10000
  const MaxTags: nat := 5
  const MaxTokensLimit: nat := 4096

  // ---------------------------------------------------------------------
  // The request as parsed JSON

  /** A parsed JSON value. JSON has no NaN or infinity, so a number is a
      real. */
  datatype Json =
    | JNull
    | JBool(b: bool)
    | JNumber(n: real)
    | JString(s: string)
    | JArray(items: seq<Json>)
    | JObject(members: map<string, Json>)

  /** The name the schema library gives the type of a received value. */
  function TypeName(j: Json): string {
    match j
    case JNull => "null"
    case JBool(_) => "boolean"
    case JNumber(_) => "number"
    case JString(_) => "string"
    case JArray(_) => "array"
    case JObject(_) => "object"
  }

  /** The value under each key the schema names; `None` when the key is
      absent. */
  datatype Body = Body(
    title: Option<Json>,
    format: Option<Json>,
    description: Option<Json>,
    content: Option<Json>,
    inputVariables: Option<Json>,
    systemPrompt: Option<Json>,
    temperature: Option<Json>,
    maxTokens: Option<Json>,
    skillContent: Option<Json>,
    businessArea: Option<Json>,
    targetPlatform: Option<Json>,
    mcpTools: Option<Json>,
    tags: Option<Json>,
    submitterName: Option<Json>,
    submitterEmail: Option<Json>,
    agreeToTerms: Option<Json>,
    turnstileToken: Option<Json>)

  function Member(members: map<string, Json>, key: string): Option<Json> {
    if key in members then Some(members[key]) else None
  }

  /** The keys of a request object that the schema reads. */
  function BodyOf(members: map<string, Json>): Body {
    Body(Member(members, "title"), Member(members, "format"), Member(members, "description"),
         Member(members, "content"), Member(members, "inputVariables"), Member(members, "systemPrompt"),
         Member(members, "temperature"), Member(members, "maxTokens"), Member(members, "skillContent"),
         Member(members, "businessArea"), Member(members, "targetPlatform"), Member(members, "mcpTools"),
         Member(members, "tags"), Member(members, "submitterName"), Member(members, "submitterEmail"),
         Member(members, "agreeToTerms"), Member(members, "turnstileToken"))
  }

  /** Where an issue is: object keys and array positions. */
  datatype Segment = Key(name: string) | Index(position: nat)

  /** A schema issue. An aborting issue (a missing field, a value of the
      wrong type, a value outside an enumeration) stops the object-level
      refinement from running. */
  datatype Issue = Issue(path: seq<Segment>, message: string, aborts: bool)

  /** The category ids of the submission taxonomy, and the e-mail syntax
      check of the schema library, which is not part of this model. */
  datatype Rules = Rules(promptIds: set<string>, skillIds: set<string>, emailOk: string -> bool)

  // ---------------------------------------------------------------------
  // Enumerations

  function ParseFormat(s: string): (r: Option<PromptFormat>)
    ensures r.Some? ==> FormatName(r.value) == s
    ensures r.None? ==> forall f :: FormatName(f) != s
  {
    if s == "general" then Some(General)
    else if s == "prompt-studio" then Some(PromptStudio)
    else if s == "mcp" then Some(Mcp)
    else if s == "skill" then Some(SkillFormat)
    else None
  }

  /** The four platforms a submission may name. */
  function ParsePlatform(s: string): (r: Option<TargetPlatform>)
    ensures r.Some? ==> r.value in {TextEnhance, PromptStudioPlatform, Advisor, McpPlatform}
  {
    if s == "text-enhance" then Some(TextEnhance)
    else if s == "prompt-studio" then Some(PromptStudioPlatform)
    else if s == "advisor" then Some(Advisor)
    else if s == "mcp" then Some(McpPlatform)
    else None
  }

  // ---------------------------------------------------------------------
  // What each field accepts

  predicate IsText(v: Option<Json>) {
    v.Some? && v.value.JString?
  }

  predicate AllText(items: seq<Json>) {
    forall j :: j in items ==> j.JString?
  }

  predicate AllPlatforms(items: seq<Json>) {
    forall j :: j in items ==> j.JString? && ParsePlatform(j.s).Some?
  }

  /** An optional string of at most `max` characters. */
  predicate TextOrAbsent(v: Option<Json>, max: nat) {
    v.None? || (v.value.JString? && |v.value.s| <= max)
  }

  /** An optional number within `min..max`. */
  predicate NumberOrAbsent(v: Option<Json>, min: nat, max: nat) {
    v.None? || (v.value.JNumber? && min as real <= v.value.n <= max as real)
  }

  /** An optional array of strings. */
  predicate TextsOrAbsent(v: Option<Json>) {
    v.None? || (v.value.JArray? && AllText(v.value.items))
  }

  /** An optional array of platform names. */
  predicate PlatformsOrAbsent(v: Option<Json>) {
    v.None? || (v.value.JArray? && AllPlatforms(v.value.items))
  }

  /** Every field has the type its rule expects and names a member of its
      enumeration: exactly the bodies on which no field issue aborts. The
      four parts follow the sections of the schema. */
  predicate Shaped(body: Body) {
    BasicShaped(body) && ContentShaped(body) && ClassificationShaped(body) && SubmitterShaped(body)
  }

  predicate BasicShaped(body: Body) {
    && IsText(body.title)
    && IsText(body.format) && ParseFormat(body.format.value.s).Some?
    && IsText(body.description)
  }

  predicate ContentShaped(body: Body) {
    && (body.content.Some? ==> body.content.value.JString?)
    && TextsOrAbsent(body.inputVariables)
    && (body.systemPrompt.Some? ==> body.systemPrompt.value.JString?)
    && (body.temperature.Some? ==> body.temperature.value.JNumber?)
    && (body.maxTokens.Some? ==> body.maxTokens.value.JNumber?)
    && (body.skillContent.Some? ==> body.skillContent.value.JString?)
  }

  predicate ClassificationShaped(body: Body) {
    && IsText(body.businessArea)
    && PlatformsOrAbsent(body.targetPlatform)
    && TextsOrAbsent(body.mcpTools)
    && TextsOrAbsent(body.tags)
  }

  predicate SubmitterShaped(body: Body) {
    && IsText(body.submitterName)
    && IsText(body.submitterEmail)
    && body.agreeToTerms.Some? && body.agreeToTerms.value.JBool?
    && IsText(body.turnstileToken)
  }

  // ---------------------------------------------------------------------
  // Field rules

  /** Some issue stops the parse. */
  predicate Aborted(issues: seq<Issue>) {
    exists i :: i in issues && i.aborts
  }

  lemma AbortedAppend()
    ensures forall a: seq<Issue>, b: seq<Issue> :: Aborted(a + b) <==> Aborted(a) || Aborted(b)
  {
    forall a: seq<Issue>, b: seq<Issue>
      ensures Aborted(a + b) <==> Aborted(a) || Aborted(b)
    {
      if Aborted(a) {
        var i :| i in a && i.aborts;
        assert i in a + b;
      }
      if Aborted(b) {
        var i :| i in b && i.aborts;
        assert i in a + b;
      }
    }
  }


  // The messages of the schema and of the schema library.
  const TermsMessage: string := "You must agree to the terms"
  const TitleTooLong: string := "Title must be less than 100 characters"
  const DescriptionTooLong: string := "Description must be less than 500 characters"
  const TokenRequired: string := "CAPTCHA verification required"
  const SkillAreaMessage: string := "For skills, you must select a valid skill category"
  const InvalidAreaMessage: string := "Invalid category. Must be a valid category from the submission form."
  const PromptAreaMessage: string := "For this format, you must select a valid prompt category"
  const TooManyTags: string := "Maximum 5 tags allowed"
  const FormatOptions: string := "'general' | 'prompt-studio' | 'mcp' | 'skill'"
  const PlatformOptions: string := "'text-enhance' | 'prompt-studio' | 'advisor' | 'mcp'"

  function Expected(expected: string, received: Json): string {
    "Expected " + expected + ", received " + TypeName(received)
  }

  /** A value of the wrong type; an absent value is reported as required. */
  function Mismatch(path: seq<Segment>, expected: string, v: Option<Json>): Issue {
    Issue(path, if v.None? then "Required" else Expected(expected, v.value), true)
  }

  /** A string outside an enumeration. */
  function InvalidEnum(options: string, received: string): string {
    "Invalid enum value. Expected " + options + ", received '" + received + "'"
  }

  function AtMost(max: nat): string {
    "String must contain at most " + NatToString(max) + " character(s)"
  }

  function AtLeastNumber(min: nat): string {
    "Number must be greater than or equal to " + NatToString(min)
  }

  function AtMostNumber(max: nat): string {
    "Number must be less than or equal to " + NatToString(max)
  }

  function TooShort(key: string, s: string, message: string): (r: seq<Issue>)
    ensures r == [] <==> |s| >= 1
    ensures forall i :: i in r ==> !i.aborts
  {
    if |s| < 1 then [Issue([Key(key)], message, false)] else []
  }

  function TooLong(key: string, s: string, max: nat, message: string): (r: seq<Issue>)
    ensures r == [] <==> |s| <= max
    ensures forall i :: i in r ==> !i.aborts
  {
    if |s| > max then [Issue([Key(key)], message, false)] else []
  }

  /** A required string of one to `max` characters. */
  function BoundedIssues(key: string, v: Option<Json>, minMessage: string, max: nat, maxMessage: string)
    : (r: seq<Issue>)
    ensures r == [] <==> IsText(v) && 1 <= |v.value.s| <= max
    ensures Aborted(r) <==> !IsText(v)
  {
    if IsText(v) then TooShort(key, v.value.s, minMessage) + TooLong(key, v.value.s, max, maxMessage)
    else [Mismatch([Key(key)], "string", v)]
  }

  /** An optional string of at most `max` characters. */
  function OptionalTextIssues(key: string, v: Option<Json>, max: nat): (r: seq<Issue>)
    ensures r == [] <==> TextOrAbsent(v, max)
    ensures Aborted(r) <==> v.Some? && !v.value.JString?
  {
    if v.None? then []
    else if v.value.JString? then TooLong(key, v.value.s, max, AtMost(max))
    else [Mismatch([Key(key)], "string", v)]
  }

  function FormatIssues(v: Option<Json>): (r: seq<Issue>)
    ensures r == [] <==> IsText(v) && ParseFormat(v.value.s).Some?
    ensures Aborted(r) <==> r != []
  {
    if !IsText(v) then [Mismatch([Key("format")], FormatOptions, v)]
    else if ParseFormat(v.value.s).None? then [Issue([Key("format")], InvalidEnum(FormatOptions, v.value.s), true)]
    else []
  }

  /** An optional number within `min..max`; each bound reports on its own. */
  function NumberIssues(key: string, v: Option<Json>, min: nat, max: nat): (r: seq<Issue>)
    ensures r == [] <==> NumberOrAbsent(v, min, max)
    ensures Aborted(r) <==> v.Some? && !v.value.JNumber?
  {
    if v.None? then []
    else if !v.value.JNumber? then [Mismatch([Key(key)], "number", v)]
    else
      (if v.value.n < min as real then [Issue([Key(key)], AtLeastNumber(min), false)] else [])
      + (if v.value.n > max as real then [Issue([Key(key)], AtMostNumber(max), false)] else [])
  }

  /** One issue per element that is not a string, at that element's path;
      `from` is the position of the first element. */
  function ElementIssues(key: string, items: seq<Json>, from: nat): (r: seq<Issue>)
    ensures r == [] <==> AllText(items)
    ensures forall i :: i in r ==> i.aborts
    ensures forall k :: 0 <= k < |items| && !items[k].JString? ==>
      Issue([Key(key), Index(from + k)], Expected("string", items[k]), true) in r
    decreases |items|
  {
    if |items| == 0 then []
    else
      var rest := ElementIssues(key, items[1..], from + 1);
      assert forall k :: 1 <= k < |items| ==> items[k] == items[1..][k - 1];
      (if items[0].JString? then [] else [Issue([Key(key), Index(from)], Expected("string", items[0]), true)])
      + rest
  }

  /** An optional array of strings (input variables, MCP tools). */
  function TextListIssues(key: string, v: Option<Json>): (r: seq<Issue>)
    ensures r == [] <==> TextsOrAbsent(v)
    ensures Aborted(r) <==> r != []
  {
    if v.None? then []
    else if !v.value.JArray? then [Mismatch([Key(key)], "array", v)]
    else
      var r := ElementIssues(key, v.value.items, 0);
      assert r != [] ==> r[0] in r;
      r
  }

  function AreaIssues(v: Option<Json>, rules: Rules): (r: seq<Issue>)
    ensures r == [] <==> IsText(v) && |v.value.s| >= 1 && (v.value.s in rules.promptIds || v.value.s in rules.skillIds)
    ensures Aborted(r) <==> !IsText(v)
  {
    if !IsText(v) then [Mismatch([Key("businessArea")], "string", v)]
    else
      var s := v.value.s;
      TooShort("businessArea", s, "Category is required")
      + (if s in rules.promptIds || s in rules.skillIds then []
         else [Issue([Key("businessArea")], InvalidAreaMessage, false)])
  }

  /** One aborting issue per element outside the enumeration, at that
      element's path. */
  function PlatformNameIssues(items: seq<Json>, from: nat): (r: seq<Issue>)
    ensures r == [] <==> AllPlatforms(items)
    ensures forall i :: i in r ==> i.aborts
    ensures forall k :: 0 <= k < |items| && items[k].JString? && ParsePlatform(items[k].s).None? ==>
      Issue([Key("targetPlatform"), Index(from + k)], InvalidEnum(PlatformOptions, items[k].s), true) in r
    decreases |items|
  {
    if |items| == 0 then []
    else
      var rest := PlatformNameIssues(items[1..], from + 1);
      assert forall k :: 1 <= k < |items| ==> items[k] == items[1..][k - 1];
      var path := [Key("targetPlatform"), Index(from)];
      (if !items[0].JString? then [Issue(path, Expected(PlatformOptions, items[0]), true)]
       else if ParsePlatform(items[0].s).None? then [Issue(path, InvalidEnum(PlatformOptions, items[0].s), true)]
       else [])
      + rest
  }

  function PlatformIssues(v: Option<Json>): (r: seq<Issue>)
    ensures r == [] <==> PlatformsOrAbsent(v)
    ensures Aborted(r) <==> r != []
  {
    if v.None? then []
    else if !v.value.JArray? then [Mismatch([Key("targetPlatform")], "array", v)]
    else
      var r := PlatformNameIssues(v.value.items, 0);
      assert r != [] ==> r[0] in r;
      r
  }

  /** The tag count is checked before the elements, and does not abort. */
  function TagIssues(v: Option<Json>): (r: seq<Issue>)
    ensures r == [] <==> TextsOrAbsent(v) && (v.Some? ==> |v.value.items| <= MaxTags)
    ensures Aborted(r) <==> !TextsOrAbsent(v)
  {
    if v.None? then []
    else if !v.value.JArray? then [Mismatch([Key("tags")], "array", v)]
    else
      (if |v.value.items| > MaxTags then [Issue([Key("tags")], TooManyTags, false)] else [])
      + ElementIssues("tags", v.value.items, 0)
  }

  function EmailIssues(v: Option<Json>, rules: Rules): (r: seq<Issue>)
    ensures r == [] <==> IsText(v) && rules.emailOk(v.value.s) && |v.value.s| >= 1
    ensures Aborted(r) <==> !IsText(v)
  {
    if !IsText(v) then [Mismatch([Key("submitterEmail")], "string", v)]
    else
      var s := v.value.s;
      (if rules.emailOk(s) then [] else [Issue([Key("submitterEmail")], "Valid email required", false)])
      + TooShort("submitterEmail", s, "Email is required")
  }

  function TermsIssues(v: Option<Json>): (r: seq<Issue>)
    ensures r == [] <==> v == Some(JBool(true))
    ensures Aborted(r) <==> !(v.Some? && v.value.JBool?)
  {
    if !(v.Some? && v.value.JBool?) then [Mismatch([Key("agreeToTerms")], "boolean", v)]
    else if v.value.b then []
    else [Issue([Key("agreeToTerms")], TermsMessage, false)]
  }

  function RequiredTextIssues(key: string, v: Option<Json>, message: string): (r: seq<Issue>)
    ensures r == [] <==> IsText(v) && |v.value.s| >= 1
    ensures Aborted(r) <==> !IsText(v)
  {
    if IsText(v) then TooShort(key, v.value.s, message) else [Mismatch([Key(key)], "string", v)]
  }

  /** The issues of the field rules, in the order of the schema. */
  function FieldIssues(body: Body, rules: Rules): seq<Issue> {
    BasicIssues(body) + ContentIssues(body) + ClassificationIssues(body, rules) + SubmitterIssues(body, rules)
  }

  function BasicIssues(body: Body): (r: seq<Issue>)
    ensures Aborted(r) <==> !BasicShaped(body)
  {
    AbortedAppend();
    BoundedIssues("title", body.title, "Title is required", MaxTitle, TitleTooLong)
    + FormatIssues(body.format)
    + BoundedIssues("description", body.description, "Description is required", MaxDescription,
                    DescriptionTooLong)
  }

  function ContentIssues(body: Body): (r: seq<Issue>)
    ensures Aborted(r) <==> !ContentShaped(body)
  {
    AbortedAppend();
    OptionalTextIssues("content", body.content, MaxContent)
    + TextListIssues("inputVariables", body.inputVariables)
    + OptionalTextIssues("systemPrompt", body.systemPrompt, MaxContent)
    + NumberIssues("temperature", body.temperature, 0, 1)
    + NumberIssues("maxTokens", body.maxTokens, 1, MaxTokensLimit)
    + OptionalTextIssues("skillContent", body.skillContent, MaxSkillContent)
  }

  function ClassificationIssues(body: Body, rules: Rules): (r: seq<Issue>)
    ensures Aborted(r) <==> !ClassificationShaped(body)
  {
    AbortedAppend();
    AreaIssues(body.businessArea, rules)
    + PlatformIssues(body.targetPlatform)
    + TextListIssues("mcpTools", body.mcpTools)
    + TagIssues(body.tags)
  }

  function SubmitterIssues(body: Body, rules: Rules): (r: seq<Issue>)
    ensures Aborted(r) <==> !SubmitterShaped(body)
  {
    AbortedAppend();
    RequiredTextIssues("submitterName", body.submitterName, "Name is required")
    + EmailIssues(body.submitterEmail, rules)
    + TermsIssues(body.agreeToTerms)
    + RequiredTextIssues("turnstileToken", body.turnstileToken, TokenRequired)
  }

  /** The cross-field rule: a skill needs a skill category, any other
      format a prompt category. */
  function CrossIssues(format: PromptFormat, area: string, rules: Rules): (r: seq<Issue>)
    ensures r == [] <==> (if format == SkillFormat then area in rules.skillIds else area in rules.promptIds)
  {
    if format == SkillFormat then
      if area in rules.skillIds then []
      else [Issue([Key("businessArea")], SkillAreaMessage, false)]
    else if area in rules.promptIds then []
    else [Issue([Key("businessArea")], PromptAreaMessage, false)]
  }

  /** A field issue aborts the parse exactly when some field has the wrong
      type or, for an enumeration, a name outside it. */
  lemma AbortedIffMisshapen(body: Body, rules: Rules)
    ensures Aborted(FieldIssues(body, rules)) <==> !Shaped(body)
  {
    AbortedAppend();
  }

  /** Every issue of the fields of a request object: the field issues, then
      the cross-field rule, which runs only when no field issue aborted. */
  function BodyIssues(body: Body, rules: Rules): seq<Issue> {
    var fields := FieldIssues(body, rules);
    if Aborted(fields) then fields
    else
      AbortedIffMisshapen(body, rules);
      fields + CrossIssues(ParseFormat(body.format.value.s).value, body.businessArea.value.s, rules)
  }

  /** Every issue of a request: a value that is not an object is one
      aborting issue at the root. */
  function Issues(json: Json, rules: Rules): seq<Issue> {
    match json
    case JObject(members) => BodyIssues(BodyOf(members), rules)
    case _ => [Issue([], Expected("object", json), true)]
  }

  /** What the field rules of the schema accept, rule by rule. */
  predicate FieldsAcceptable(body: Body, rules: Rules) {
    && IsText(body.title) && 1 <= |body.title.value.s| <= MaxTitle
    && IsText(body.format) && ParseFormat(body.format.value.s).Some?
    && IsText(body.description) && 1 <= |body.description.value.s| <= MaxDescription
    && TextOrAbsent(body.content, MaxContent)
    && TextsOrAbsent(body.inputVariables)
    && TextOrAbsent(body.systemPrompt, MaxContent)
    && NumberOrAbsent(body.temperature, 0, 1)
    && NumberOrAbsent(body.maxTokens, 1, MaxTokensLimit)
    && TextOrAbsent(body.skillContent, MaxSkillContent)
    && IsText(body.businessArea) && |body.businessArea.value.s| >= 1
    && (body.businessArea.value.s in rules.promptIds || body.businessArea.value.s in rules.skillIds)
    && PlatformsOrAbsent(body.targetPlatform)
    && TextsOrAbsent(body.mcpTools)
    && TextsOrAbsent(body.tags) && (body.tags.Some? ==> |body.tags.value.items| <= MaxTags)
    && IsText(body.submitterName) && |body.submitterName.value.s| >= 1
    && IsText(body.submitterEmail) && rules.emailOk(body.submitterEmail.value.s)
    && |body.submitterEmail.value.s| >= 1
    && body.agreeToTerms == Some(JBool(true))
    && IsText(body.turnstileToken) && |body.turnstileToken.value.s| >= 1
  }

  /** The field rules, then the cross-field rule. */
  predicate BodyAcceptable(body: Body, rules: Rules) {
    && FieldsAcceptable(body, rules)
    && (if ParseFormat(body.format.value.s).value == SkillFormat
        then body.businessArea.value.s in rules.skillIds
        else body.businessArea.value.s in rules.promptIds)
  }

  /** What the schema accepts: an object whose fields are acceptable. */
  predicate Acceptable(json: Json, rules: Rules) {
    json.JObject? && BodyAcceptable(BodyOf(json.members), rules)
  }

  /** No field rule complains exactly when the fields are acceptable. */
  lemma FieldIssuesEmptyIff(body: Body, rules: Rules)
    ensures FieldIssues(body, rules) == [] <==> FieldsAcceptable(body, rules)
  {
  }

  /** A request passes the schema exactly when it is acceptable. */
  lemma IssuesEmptyIffAcceptable(json: Json, rules: Rules)
    ensures Issues(json, rules) == [] <==> Acceptable(json, rules)
  {
    if json.JObject? {
      var body := BodyOf(json.members);
      var fields := FieldIssues(body, rules);
      FieldIssuesEmptyIff(body, rules);
      if fields == [] {
        assert !Aborted(fields);
      } else {
        assert fields[0] in fields;
      }
    }
  }

  /** A field of the wrong type is refused with an aborting issue, and the
      cross-field rule does not run. */
  lemma MisshapenRefused(json: Json, rules: Rules)
    requires json.JObject? && !Shaped(BodyOf(json.members))
    ensures !Acceptable(json, rules)
    ensures Issues(json, rules) == FieldIssues(BodyOf(json.members), rules)
    ensures Aborted(Issues(json, rules))
  {
    AbortedIffMisshapen(BodyOf(json.members), rules);
    IssuesEmptyIffAcceptable(json, rules);
  }

  // ---------------------------------------------------------------------
  // From JSON to the submission

  function TextJson(o: Option<string>): Option<Json> {
    if o.Some? then Some(JString(o.value)) else None
  }

  function NumberJson(o: Option<real>): Option<Json> {
    if o.Some? then Some(JNumber(o.value)) else None
  }

  function StringsJson(xs: seq<string>): seq<Json> {
    seq(|xs|, i requires 0 <= i < |xs| => JString(xs[i]))
  }

  function TextsJson(o: Option<seq<string>>): Option<Json> {
    if o.Some? then Some(JArray(StringsJson(o.value))) else None
  }

  function TextValue(v: Option<Json>): (r: Option<string>)
    requires v.None? || v.value.JString?
    ensures TextJson(r) == v
  {
    if v.Some? then Some(v.value.s) else None
  }

  function NumberValue(v: Option<Json>): (r: Option<real>)
    requires v.None? || v.value.JNumber?
    ensures NumberJson(r) == v
  {
    if v.Some? then Some(v.value.n) else None
  }

  function Texts(items: seq<Json>): (r: seq<string>)
    requires AllText(items)
    ensures StringsJson(r) == items
  {
    var r := seq(|items|, i requires 0 <= i < |items| => items[i].s);
    assert forall i :: 0 <= i < |items| ==> StringsJson(r)[i] == items[i];
    r
  }

  function TextsValue(v: Option<Json>): (r: Option<seq<string>>)
    requires TextsOrAbsent(v)
    ensures TextsJson(r) == v
  {
    if v.Some? then Some(Texts(v.value.items)) else None
  }

  function ParsePlatforms(items: seq<Json>): (r: seq<TargetPlatform>)
    requires AllPlatforms(items)
    ensures |r| == |items|
    ensures forall i :: 0 <= i < |items| ==> Some(r[i]) == ParsePlatform(items[i].s)
  {
    seq(|items|, i requires 0 <= i < |items| => ParsePlatform(items[i].s).value)
  }

  /** The platforms of a request: present exactly when sent, each the
      parse of the name at its position. */
  predicate PlatformsFrom(r: Option<seq<TargetPlatform>>, v: Option<Json>) {
    && (r.Some? <==> v.Some?)
    && (r.Some? ==>
          && v.value.JArray? && |r.value| == |v.value.items|
          && forall i :: 0 <= i < |r.value| ==>
               v.value.items[i].JString? && Some(r.value[i]) == ParsePlatform(v.value.items[i].s))
  }

  /** The parsed request: the submission without the e-mail address, which
      is kept apart, and the CAPTCHA token. */
  datatype Validated = Validated(submission: Submission, email: string, turnstileToken: string)

  datatype Validation = Valid(v: Validated) | Invalid(issues: seq<Issue>)

  /** How an accepted body becomes the parsed request: title, description
      and name sanitized, the format and platforms parsed, every other field
      as sent, so that it encodes back to the body. */
  predicate ParsedFrom(v: Validated, body: Body) {
    var s := v.submission;
    && IsText(body.title) && s.title == SanitizeInput(body.title.value.s)
    && IsText(body.description) && s.description == SanitizeInput(body.description.value.s)
    && IsText(body.submitterName) && s.submitterName == SanitizeInput(body.submitterName.value.s)
    && body.format == Some(JString(FormatName(s.format)))
    && body.businessArea == Some(JString(s.businessArea))
    && TextJson(s.content) == body.content
    && TextsJson(s.inputVariables) == body.inputVariables
    && TextJson(s.systemPrompt) == body.systemPrompt
    && NumberJson(s.temperature) == body.temperature
    && NumberJson(s.maxTokens) == body.maxTokens
    && TextJson(s.skillContent) == body.skillContent
    && PlatformsFrom(s.targetPlatform, body.targetPlatform)
    && TextsJson(s.mcpTools) == body.mcpTools
    && TextsJson(s.tags) == body.tags
    && body.agreeToTerms == Some(JBool(s.agreeToTerms))
    && body.submitterEmail == Some(JString(v.email))
    && body.turnstileToken == Some(JString(v.turnstileToken))
  }

  function ValidatedOf(body: Body): (v: Validated)
    requires Shaped(body)
    ensures ParsedFrom(v, body)
  {
    var platforms :=
      if body.targetPlatform.Some? then Some(ParsePlatforms(body.targetPlatform.value.items)) else None;
    var sub := Submission(
      SanitizeInput(body.title.value.s),
      ParseFormat(body.format.value.s).value,
      SanitizeInput(body.description.value.s),
      TextValue(body.content), TextsValue(body.inputVariables), TextValue(body.systemPrompt),
      NumberValue(body.temperature), NumberValue(body.maxTokens), TextValue(body.skillContent),
      body.businessArea.value.s, platforms, TextsValue(body.mcpTools), TextsValue(body.tags),
      SanitizeInput(body.submitterName.value.s), body.agreeToTerms.value.b);
    Validated(sub, body.submitterEmail.value.s, body.turnstileToken.value.s)
  }

  /** promptSubmissionSchema.parse: the lengths are checked on the raw
      text, then title, description and submitter name are sanitized. */
  function Validate(json: Json, rules: Rules): (r: Validation)
    ensures r.Valid? <==> Acceptable(json, rules)
    ensures r.Invalid? ==> |r.issues| > 0 && r.issues == Issues(json, rules)
    ensures r.Valid? ==> ParsedFrom(r.v, BodyOf(json.members))
    ensures r.Valid? ==> var s := r.v.submission;
      && (s.format == SkillFormat ==> s.businessArea in rules.skillIds)
      && (s.format != SkillFormat ==> s.businessArea in rules.promptIds)
      && s.agreeToTerms && |r.v.turnstileToken| >= 1
  {
    IssuesEmptyIffAcceptable(json, rules);
    var issues := Issues(json, rules);
    if issues != [] then Invalid(issues)
    else Valid(ValidatedOf(BodyOf(json.members)))
  }

  /** A title of exactly 100 characters passes, although its message says
      it must be less than 100. */
  lemma TitleOfMaxLengthPasses(s: string)
    requires |s| == MaxTitle
    ensures BoundedIssues("title", Some(JString(s)), "Title is required", MaxTitle, TitleTooLong) == []
  {
  }

  /** The lengths are checked before sanitizing: a title made only of
      angle brackets passes and is stored empty. */
  lemma AngleOnlyTitleStoredEmpty(json: Json, rules: Rules)
    requires Acceptable(json, rules) && BodyOf(json.members).title == Some(JString("<>"))
    ensures Validate(json, rules).Valid? && Validate(json, rules).v.submission.title == ""
  {
    assert StripAngles("<>") == "";
  }

  // ---------------------------------------------------------------------
  // CAPTCHA and error mapping

  /** What the CAPTCHA service answers: its `success` field, or a failure. */
  datatype CaptchaReply = Answered(success: Option<bool>) | CaptchaFailed(thrown: Thrown)

  /** verifyTurnstile: only a literal `true` counts as verified. */
  predicate CaptchaValid(success: Option<bool>) {
    success == Some(true)
  }

  /** The status of an error that reaches the handler's catch block and is
      not a schema error: a time-out, then the rate limit, else 500. */
  function StatusFor(t: Thrown): (status: int)
    ensures status in {504, 429, 500}
    ensures status == 504 <==> t.ErrorWithMessage? && (Contains(t.message, "timeout") || Contains(t.message, "ETIMEDOUT"))
    ensures status == 429 <==> t.ErrorWithMessage? && !Contains(t.message, "timeout")
                               && !Contains(t.message, "ETIMEDOUT") && Contains(t.message, "rate limit")
  {
    match t
    case NonError => 500
    case ErrorWithMessage(m) =>
      if Contains(m, "timeout") || Contains(m, "ETIMEDOUT") then 504
      else if Contains(m, "rate limit") then 429
      else 500
  }

  const TimeoutText: string := "Request timed out. Please try again. Your data has been preserved."
  const RateLimitText: string := "GitHub API rate limit exceeded. Please try again in a few minutes."
  const FailureText: string := "Failed to create submission. Please try again."
  const CaptchaFailedText: string := "CAPTCHA verification failed"
  const ValidationFailedText: string := "Validation failed"

  function ErrorText(status: int): string {
    if status == 504 then TimeoutText
    else if status == 429 then RateLimitText
    else FailureText
  }

  /** A message that mentions both a time-out and the rate limit is
      reported as a time-out. */
  lemma TimeoutBeforeRateLimit(m: string)
    requires Contains(m, "timeout") && Contains(m, "rate limit")
    ensures StatusFor(ErrorWithMessage(m)) == 504
  {
  }

  // ---------------------------------------------------------------------
  // The handler

  /** What `request.json()` yields: a failure, or the parsed value. */
  datatype Request = Unreadable(thrown: Thrown) | Parsed(json: Json)

  datatype Response =
    | Accepted(prUrl: string, prNumber: int, message: string)
    | Refused(status: int, error: string, details: seq<Issue>)

  /** The outside effects of one request, in order. */
  datatype Effect =
    | VerifyCaptcha(token: string)
    | Repository(calls: seq<ApiCall>)
    | SendConfirmation(to: string, title: string, prUrl: string, prNumber: int)

  const SuccessMessage: string := "Submission successful! Your prompt is now under review."

  /** The clock and random readings the handler takes, each its own: the
      id's timestamp and random part, the creation instant, the author
      stamp, and the instant that names the branch. */
  datatype Readings = Readings(idStamp: nat, random: string, created: int, authorStamp: nat, isoTime: string)

  /** The prompt the handler commits for a validated request. */
  function SubmittedPrompt(v: Validated, readings: Readings): Prompt {
    FormatSubmissionAsPrompt(v.submission, GeneratePromptId(readings.idStamp, readings.random),
                             readings.created, readings.authorStamp)
  }

  /** The response and effects of the steps after the CAPTCHA check:
      the repository calls, then, only when they all succeed, the
      confirmation e-mail and the success response. A failed call is
      rethrown as an Error and mapped to a status by its message. */
  predicate Published(v: Validated, readings: Readings, replies: RepositoryReplies,
                      response: Response, effects: seq<Effect>)
  {
    var prompt := SubmittedPrompt(v, readings);
    && |effects| >= 1
    && effects[0] == Repository(Plan(prompt, v.submission.submitterName, readings.isoTime,
                                     ShaOf(replies), NumberOf(replies))[..CallsMade(replies)])
    && (FirstFailure(replies).Some? ==>
          var status := StatusFor(ErrorWithMessage(Rethrown(FirstFailure(replies).value)));
          |effects| == 1 && response == Refused(status, ErrorText(status), []))
    && (FirstFailure(replies).None? ==>
          var pr := replies.createPull.value;
          && |effects| == 2
          && effects[1] == SendConfirmation(v.email, prompt.item.title, pr.htmlUrl, pr.number)
          && response == Accepted(pr.htmlUrl, pr.number, SuccessMessage))
  }

  /** The response and effects from the CAPTCHA check on: a failed or
      negative check ends the request after the check itself. */
  predicate CaptchaChecked(v: Validated, captcha: CaptchaReply, readings: Readings, replies: RepositoryReplies,
                           response: Response, effects: seq<Effect>)
  {
    && |effects| >= 1 && effects[0] == VerifyCaptcha(v.turnstileToken)
    && (captcha.CaptchaFailed? ==>
          |effects| == 1 && response == Refused(StatusFor(captcha.thrown), ErrorText(StatusFor(captcha.thrown)), []))
    && (captcha.Answered? && !CaptchaValid(captcha.success) ==>
          |effects| == 1 && response == Refused(400, CaptchaFailedText, []))
    && (captcha == Answered(Some(true)) ==> Published(v, readings, replies, response, effects[1..]))
  }

  /** Steps 4 to 9 of the handler: the id, the prompt, the pull request
      and the confirmation e-mail. */
  method Publish(v: Validated, readings: Readings, replies: RepositoryReplies)
    returns (response: Response, effects: seq<Effect>)
    ensures Published(v, readings, replies, response, effects)
    ensures response.Accepted? <==> FirstFailure(replies).None?
  {
    var promptId := GeneratePromptId(readings.idStamp, readings.random);
    var promptObject := FormatSubmissionAsPrompt(v.submission, promptId, readings.created, readings.authorStamp);
    assert promptObject == SubmittedPrompt(v, readings);
    var outcome, calls := CreateSubmissionPR(promptObject, v.submission.submitterName, readings.isoTime, replies);
    effects := [Repository(calls)];
    if outcome.Rejected? {
      var status := StatusFor(ErrorWithMessage(outcome.message));
      response := Refused(status, ErrorText(status), []);
      assert FirstFailure(replies).Some? && outcome.message == Rethrown(FirstFailure(replies).value);
      return;
    }
    var pr := outcome.pr;
    effects := effects + [SendConfirmation(v.email, promptObject.item.title, pr.htmlUrl, pr.number)];
    response := Accepted(pr.htmlUrl, pr.number, SuccessMessage);
  }

  /** Step 3 of the handler and what follows it. */
  method CheckCaptchaThenPublish(v: Validated, captcha: CaptchaReply, readings: Readings, replies: RepositoryReplies)
    returns (response: Response, effects: seq<Effect>)
    ensures CaptchaChecked(v, captcha, readings, replies, response, effects)
    ensures response.Accepted? <==> captcha == Answered(Some(true)) && FirstFailure(replies).None?
  {
    effects := [VerifyCaptcha(v.turnstileToken)];
    if captcha.CaptchaFailed? {
      var status := StatusFor(captcha.thrown);
      return Refused(status, ErrorText(status), []), effects;
    }
    if !CaptchaValid(captcha.success) {
      return Refused(400, CaptchaFailedText, []), effects;
    }
    var rest;
    response, rest := Publish(v, readings, replies);
    effects := effects + rest;
    assert effects[1..] == rest;
  }

  /** POST. The confirmation e-mail's own outcome never changes the
      response, so it is not an input. */
  method Post(request: Request, rules: Rules, captcha: CaptchaReply, readings: Readings, replies: RepositoryReplies)
    returns (response: Response, effects: seq<Effect>)
    ensures request.Unreadable? ==>
      effects == [] && response == Refused(StatusFor(request.thrown), ErrorText(StatusFor(request.thrown)), [])
    ensures request.Parsed? && !Acceptable(request.json, rules) ==>
      effects == [] && response == Refused(400, ValidationFailedText, Issues(request.json, rules))
    ensures request.Parsed? && Acceptable(request.json, rules) ==>
      CaptchaChecked(Validate(request.json, rules).v, captcha, readings, replies, response, effects)
    ensures response.Accepted? <==>
      request.Parsed? && Acceptable(request.json, rules) && captcha == Answered(Some(true)) && FirstFailure(replies).None?
  {
    if request.Unreadable? {
      var status := StatusFor(request.thrown);
      return Refused(status, ErrorText(status), []), [];
    }
    var validation := Validate(request.json, rules);
    if validation.Invalid? {
      return Refused(400, ValidationFailedText, validation.issues), [];
    }
    response, effects := CheckCaptchaThenPublish(validation.v, captcha, readings, replies);
  }
}
