/** Helpers of the submission pipeline (lib/prompt-helpers.ts): the id of a
    submitted prompt, the placeholders a prompt text declares, the conversion
    of a submission into a catalog prompt, and input sanitising. */
module PromptHelpers {
  import opened Common
  import opened CatalogTypes

  // ---------------------------------------------------------------------
  // Submission ids

  /** `submitted-<timestamp>-<random>`; the clock reading and the base-36
      random fragment are parameters. */
  function GeneratePromptId(timestamp: nat, random: string): (r: string)
    ensures StartsWith(r, "submitted-")
  {
    "submitted-" + NatToString(timestamp) + "-" + random
  }

  /** Distinct clock readings or random fragments give distinct ids. */
  lemma GeneratePromptIdInjective(t1: nat, r1: string, t2: nat, r2: string)
    requires GeneratePromptId(t1, r1) == GeneratePromptId(t2, r2)
    ensures t1 == t2 && r1 == r2
  {
    var a := NatToString(t1);
    var b := NatToString(t2);
    var s := GeneratePromptId(t1, r1);
    assert s == "submitted-" + (a + "-" + r1);
    assert s == "submitted-" + (b + "-" + r2);
    assert s[10..] == a + "-" + r1 == b + "-" + r2;
    // The first dash after the prefix ends the digits.
    DashEndsDigits(a, r1, b, r2);
    NatToStringInjective(t1, t2);
  }

  /** Two digit strings each followed by a dash split the same text the
      same way. */
  lemma DashEndsDigits(a: string, u: string, b: string, v: string)
    requires a + "-" + u == b + "-" + v
    requires forall c :: c in a ==> IsDigit(c)
    requires forall c :: c in b ==> IsDigit(c)
    ensures a == b && u == v
  {
    var s := a + "-" + u;
    assert forall i :: 0 <= i < |a| ==> s[i] == a[i] && a[i] in a;
    assert forall i :: 0 <= i < |b| ==> s[i] == b[i] && b[i] in b;
    assert s[|a|] == '-' && s[|b|] == '-';
    assert a == s[..|a|] == b;
    assert u == s[|a| + 1..] == v;
  }

  // ---------------------------------------------------------------------
  // Placeholder extraction

  /** The placeholder syntaxes: `[NAME]` with upper-case letters and
      underscores, `${name}` with letters and underscores, and the
      stricter `${NAME}` of the prompt detail view. */
  datatype Pattern = Bracket | Dollar | UpperDollar

  function Open(p: Pattern): string {
    match p
    case Bracket => "["
    case Dollar => "${"
    case UpperDollar => "${"
  }

  function Close(p: Pattern): char {
    match p
    case Bracket => ']'
    case Dollar => '}'
    case UpperDollar => '}'
  }

  predicate NameChar(p: Pattern, c: char) {
    match p
    case Bracket => IsUpper(c) || c == '_'
    case Dollar => IsLetter(c) || c == '_'
    case UpperDollar => IsUpper(c) || c == '_'
  }

  /** No delimiter can be part of a name. */
  lemma DelimitersOutsideNames(p: Pattern)
    ensures |Open(p)| > 0 && !NameChar(p, Open(p)[0]) && !NameChar(p, Close(p))
  {
  }

  predicate IsName(p: Pattern, name: string) {
    |name| > 0 && forall c :: c in name ==> NameChar(p, c)
  }

  /** The text of a placeholder. */
  function Token(p: Pattern, name: string): string {
    Open(p) + name + [Close(p)]
  }

  /** The longest prefix of `s` made of name characters. */
  function NameRun(p: Pattern, s: string): (r: string)
    ensures |r| <= |s| && r == s[..|r|]
    ensures forall c :: c in r ==> NameChar(p, c)
    ensures |r| < |s| ==> !NameChar(p, s[|r|])
  {
    if |s| > 0 && NameChar(p, s[0]) then [s[0]] + NameRun(p, s[1..]) else ""
  }

  lemma {:induction false} NameRunOf(p: Pattern, name: string, rest: string)
    requires forall c :: c in name ==> NameChar(p, c)
    requires |rest| > 0 && !NameChar(p, rest[0])
    ensures NameRun(p, name + rest) == name
  {
    if |name| > 0 {
      assert (name + rest)[1..] == name[1..] + rest;
      NameRunOf(p, name[1..], rest);
    }
  }

  /** The name captured by a match of the pattern at the start of `s`. */
  function MatchAt(p: Pattern, s: string): (r: Option<string>)
    ensures r.Some? ==> IsName(p, r.value) && StartsWith(s, Token(p, r.value))
  {
    if StartsWith(s, Open(p)) then
      var run := NameRun(p, s[|Open(p)|..]);
      if |run| > 0 && |Open(p)| + |run| < |s| && s[|Open(p)| + |run|] == Close(p) then
        assert s[..|Token(p, run)|] == Token(p, run);
        Some(run)
      else None
    else None
  }

  /** Where the opening delimiter, the name and the closing one sit in a
      placeholder. */
  lemma TokenParts(p: Pattern, name: string)
    ensures var t := Token(p, name); var k := |Open(p)|;
      && |t| == k + |name| + 1
      && t[..k] == Open(p)
      && t[k..k + |name|] == name
      && t[k + |name|] == Close(p)
  {
  }

  lemma MatchAtToken(p: Pattern, s: string, name: string)
    requires IsName(p, name) && StartsWith(s, Token(p, name))
    ensures MatchAt(p, s) == Some(name)
  {
    var k := |Open(p)|;
    var t := Token(p, name);
    DelimitersOutsideNames(p);
    TokenParts(p, name);
    var n := k + |name|;
    PrefixSlice(s, t, 0, k);
    PrefixSlice(s, t, k, n);
    assert s[n] == s[..|t|][n] == t[n];
    var rest := s[n..];
    SliceJoin(s, k, n);
    NameRunOf(p, name, rest);
  }

  /** A global `match` with the delimiters sliced off: the names of the
      successive non-overlapping matches, left to right. */
  function Scan(p: Pattern, s: string): (r: seq<string>)
    ensures forall name :: name in r ==> IsName(p, name)
    decreases |s|
  {
    if |s| == 0 then []
    else match MatchAt(p, s)
      case Some(name) => [name] + Scan(p, s[|Token(p, name)|..])
      case None => Scan(p, s[1..])
  }

  /** No placeholder starts strictly inside another one. */
  lemma TokenInterior(p: Pattern, name: string, j: int)
    requires IsName(p, name) && 0 < j < |Token(p, name)|
    ensures Token(p, name)[j] != Open(p)[0]
  {
    var t := Token(p, name);
    DelimitersOutsideNames(p);
    if j >= |Open(p)| && j < |Open(p)| + |name| {
      assert t[j] == name[j - |Open(p)|];
      assert NameChar(p, t[j]);
    }
  }

  lemma OccursShift(s: string, t: string, i: int, k: nat)
    requires k <= i && k <= |s|
    ensures OccursAt(s, t, i) <==> OccursAt(s[k..], t, i - k)
  {
    if OccursAt(s, t, i) {
      assert s[k..][i - k..i - k + |t|] == s[i..i + |t|];
    }
    if OccursAt(s[k..], t, i - k) {
      assert s[k..][i - k..i - k + |t|] == s[i..i + |t|];
    }
  }

  /** A name is extracted exactly when its placeholder occurs in the text. */
  lemma {:induction false} ScanComplete(p: Pattern, s: string, name: string)
    ensures name in Scan(p, s) <==> IsName(p, name) && Contains(s, Token(p, name))
    decreases |s|
  {
    if |s| > 0 {
      match MatchAt(p, s)
      case Some(m) =>
        ScanComplete(p, s[|Token(p, m)|..], name);
        ScanStepMatch(p, s, m, name);
      case None =>
        ScanComplete(p, s[1..], name);
        ScanStepSkip(p, s, name);
    }
  }

  /** After a match, the scan resumes past it and misses nothing. */
  lemma ScanStepMatch(p: Pattern, s: string, m: string, name: string)
    requires |s| > 0 && MatchAt(p, s) == Some(m)
    requires var k := |Token(p, m)|;
      name in Scan(p, s[k..]) <==> IsName(p, name) && Contains(s[k..], Token(p, name))
    ensures name in Scan(p, s) <==> IsName(p, name) && Contains(s, Token(p, name))
  {
    var t := Token(p, name);
    var k := |Token(p, m)|;
    DelimitersOutsideNames(p);
    assert Scan(p, s) == [m] + Scan(p, s[k..]);
    if name in Scan(p, s[k..]) {
      var i :| 0 <= i <= |s[k..]| - |t| && OccursAt(s[k..], t, i);
      OccursShift(s, t, i + k, k);
    }
    if name == m {
      assert OccursAt(s, t, 0);
    }
    if IsName(p, name) && Contains(s, t) {
      var i :| 0 <= i <= |s| - |t| && OccursAt(s, t, i);
      if i == 0 {
        MatchAtToken(p, s, name);
      } else {
        TokenStart(p, s, name, i);
        assert s[..k] == Token(p, m);
        forall j | 0 < j < k ensures s[j] != Open(p)[0] {
          TokenInterior(p, m, j);
        }
        OccursShift(s, t, i, k);
      }
    }
  }

  /** Where a placeholder occurs, the text holds its first delimiter character. */
  lemma TokenStart(p: Pattern, s: string, name: string, i: int)
    requires OccursAt(s, Token(p, name), i)
    ensures s[i] == Open(p)[0]
  {
    DelimitersOutsideNames(p);
    var t := Token(p, name);
    assert s[i] == s[i..i + |t|][0] == t[0];
  }

  /** Without a match at the start, the scan moves one character on. */
  lemma ScanStepSkip(p: Pattern, s: string, name: string)
    requires |s| > 0 && MatchAt(p, s) == None
    requires name in Scan(p, s[1..]) <==> IsName(p, name) && Contains(s[1..], Token(p, name))
    ensures name in Scan(p, s) <==> IsName(p, name) && Contains(s, Token(p, name))
  {
    var t := Token(p, name);
    if name in Scan(p, s[1..]) {
      var i :| 0 <= i <= |s[1..]| - |t| && OccursAt(s[1..], t, i);
      OccursShift(s, t, i + 1, 1);
    }
    if IsName(p, name) && Contains(s, t) {
      var i :| 0 <= i <= |s| - |t| && OccursAt(s, t, i);
      if i == 0 {
        MatchAtToken(p, s, name);
      }
      OccursShift(s, t, i, 1);
    }
  }

  /** extractVariables: the `[NAME]` names, then the `${name}` names,
      each once, in order of first appearance. */
  function ExtractVariables(content: string): (r: seq<string>)
    ensures NoDuplicates(r)
    ensures forall v :: v in r <==> v in Scan(Bracket, content) || v in Scan(Dollar, content)
  {
    Dedupe(Scan(Bracket, content) + Scan(Dollar, content))
  }

  /** The extracted names are exactly the placeholders of the text. */
  lemma ExtractVariablesComplete(content: string, v: string)
    ensures v in ExtractVariables(content) <==>
      (IsName(Bracket, v) && Contains(content, Token(Bracket, v)))
      || (IsName(Dollar, v) && Contains(content, Token(Dollar, v)))
  {
    ScanComplete(Bracket, content, v);
    ScanComplete(Dollar, content, v);
  }

  /** Bracket names come first, in their own order of appearance. */
  lemma ExtractVariablesBracketsFirst(content: string)
    ensures var b := Dedupe(Scan(Bracket, content));
            |b| <= |ExtractVariables(content)| && ExtractVariables(content)[..|b|] == b
  {
    var a := Scan(Bracket, content);
    var d := Scan(Dollar, content);
    if |a| > 0 {
      assert (a + d)[1..] == a[1..] + d;
      DedupeFromAppend(a[1..], d, [a[0]]);
    }
  }

  // ---------------------------------------------------------------------
  // Sanitising

  /** sanitizeInput: angle brackets removed, then trimmed. */
  function SanitizeInput(input: string): (r: string)
    ensures '<' !in r && '>' !in r
    ensures |r| > 0 ==> !IsWhite(r[0]) && !IsWhite(r[|r| - 1])
    ensures forall c :: c in r ==> c in input
    ensures TrimmedFrom(StripAngles(input), r)
  {
    var stripped := StripAngles(input);
    var r := Trim(stripped);
    ContainsChars(stripped, r);
    r
  }

  /** A text with no angle bracket and no white space at its ends is kept
      as it is. */
  lemma SanitizeKeepsClean(input: string)
    requires '<' !in input && '>' !in input
    requires |input| == 0 || (!IsWhite(input[0]) && !IsWhite(input[|input| - 1]))
    ensures SanitizeInput(input) == input
  {
    StripAnglesNoop(input);
    TrimStartNoop(input);
    TrimEndNoop(input);
  }

  /** Sanitising an already sanitised string changes nothing. */
  lemma SanitizeIdempotent(input: string)
    ensures SanitizeInput(SanitizeInput(input)) == SanitizeInput(input)
  {
    var r := SanitizeInput(input);
    StripAnglesNoop(r);
    TrimStartNoop(r);
    TrimEndNoop(r);
  }

  // ---------------------------------------------------------------------
  // Submission to catalog prompt

  /** The validated request body, without the e-mail address. */
  datatype Submission = Submission(
    title: string,
    format: PromptFormat,
    description: string,
    content: Option<string>,
    inputVariables: Option<seq<string>>,
    systemPrompt: Option<string>,
    temperature: Option<real>,
    maxTokens: Option<real>,
    skillContent: Option<string>,
    businessArea: string,
    targetPlatform: Option<seq<TargetPlatform>>,
    mcpTools: Option<seq<string>>,
    tags: Option<seq<string>>,
    submitterName: string,
    agreeToTerms: bool)

  /** `s || ""`. */
  function OrEmpty(s: Option<string>): string {
    if s.Some? then s.value else ""
  }

  /** The body of the prompt: the field the format selects. */
  function BodyFor(sub: Submission): (r: string)
    ensures sub.format == General || sub.format == Mcp ==> r == OrEmpty(sub.content)
    ensures sub.format == PromptStudio ==> r == OrEmpty(sub.systemPrompt)
    ensures sub.format == SkillFormat ==> r == OrEmpty(sub.skillContent)
  {
    match sub.format
    case General => OrEmpty(sub.content)
    case Mcp => OrEmpty(sub.content)
    case PromptStudio => OrEmpty(sub.systemPrompt)
    case SkillFormat => OrEmpty(sub.skillContent)
  }

  /** Supplied placeholders win; otherwise they are read off `content`
      (whatever the format), and an absent or empty `content` gives none. */
  function InputVariablesFor(sub: Submission): (r: seq<string>)
    ensures sub.inputVariables.Some? && |sub.inputVariables.value| > 0 ==> r == sub.inputVariables.value
    ensures !(sub.inputVariables.Some? && |sub.inputVariables.value| > 0) ==>
      forall v :: v in r ==> (sub.content.Some? &&
        ((IsName(Bracket, v) && Contains(sub.content.value, Token(Bracket, v)))
         || (IsName(Dollar, v) && Contains(sub.content.value, Token(Dollar, v)))))
    ensures !(sub.inputVariables.Some? && |sub.inputVariables.value| > 0) ==>
      r == (if sub.content.Some? && sub.content.value != "" then ExtractVariables(sub.content.value) else [])
  {
    if sub.inputVariables.Some? && |sub.inputVariables.value| > 0 then sub.inputVariables.value
    else if sub.content.Some? && sub.content.value != "" then
      var r := ExtractVariables(sub.content.value);
      forall v | v in r
        ensures (IsName(Bracket, v) && Contains(sub.content.value, Token(Bracket, v)))
             || (IsName(Dollar, v) && Contains(sub.content.value, Token(Dollar, v)))
      {
        ExtractVariablesComplete(sub.content.value, v);
      }
      r
    else []
  }

  /** formatSubmissionAsPrompt. `now` is the creation instant and
      `authorStamp` the second clock reading that names the author. */
  function FormatSubmissionAsPrompt(sub: Submission, promptId: string, now: int, authorStamp: nat): (r: Prompt)
    ensures r.item.id == promptId && r.item.title == sub.title && r.item.description == sub.description
    ensures r.format == sub.format && r.businessArea == sub.businessArea
    ensures r.item.content == BodyFor(sub)
    ensures r.modelSettings.Some? <==> sub.format == PromptStudio
    ensures r.modelSettings.Some? ==>
      r.modelSettings.value.temperature == sub.temperature && r.modelSettings.value.maxTokens == sub.maxTokens
    ensures r.targetPlatform.Some? <==> sub.targetPlatform.Some? && |sub.targetPlatform.value| > 0
    ensures r.targetPlatform.Some? ==> r.targetPlatform.value == sub.targetPlatform.value[0]
    ensures r.inputVariables == Some(InputVariablesFor(sub))
    ensures r.item.author.name == sub.submitterName && StartsWith(r.item.author.id, "submitted-")
    ensures r.item.rating == Rating(0.0, 0) && r.item.downloads == 0
    ensures r.item.createdAt == now && r.item.updatedAt == now
    ensures r.item.tags == (if sub.tags.Some? then sub.tags.value else [])
    ensures r.mcpTools == sub.mcpTools && r.compatibility == Some([])
    ensures r.item.author.avatar == Some("")
  {
    var settings :=
      if sub.format == PromptStudio
      then Some(ModelSettings(sub.temperature, None, None, sub.maxTokens, None, None))
      else None;
    var platform :=
      if sub.targetPlatform.Some? && |sub.targetPlatform.value| > 0
      then Some(sub.targetPlatform.value[0])
      else None;
    var author := Author("submitted-" + NatToString(authorStamp), sub.submitterName, Some(""));
    var item := Item(promptId, sub.title, sub.description, BodyFor(sub), author, Rating(0.0, 0), 0,
                     if sub.tags.Some? then sub.tags.value else [], now, now);
    Prompt(item, sub.format, sub.businessArea, platform, sub.mcpTools, None,
           Some(InputVariablesFor(sub)), Some([]), None, settings, None)
  }
}
