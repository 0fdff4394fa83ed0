/** The content tab of the prompt detail view
    (components/marketplace/PromptContentTab.tsx): which placeholders the
    reader can fill in, the preview with the entered values substituted,
    the text that is copied or downloaded, its file name, and which of the
    four layouts is shown. */
module ContentTab {
  import opened Common
  import opened CatalogTypes
  import opened PromptHelpers

  // ---------------------------------------------------------------------
  // Placeholders

  /** The placeholder texts of a list of names. */
  function Tokens(p: Pattern, names: seq<string>): (r: seq<string>)
    ensures |r| == |names|
    ensures forall t :: t in r <==> exists name :: name in names && t == Token(p, name)
  {
    if |names| == 0 then [] else [Token(p, names[0])] + Tokens(p, names[1..])
  }

  /** extractInputVariables: the `[NAME]` placeholders, then the `${NAME}`
      ones, delimiters kept, each once in order of first appearance. */
  function ExtractInputVariables(content: string): (r: seq<string>)
    ensures NoDuplicates(r)
  {
    Dedupe(Tokens(Bracket, Scan(Bracket, content)) + Tokens(UpperDollar, Scan(UpperDollar, content)))
  }

  /** The `[NAME]` placeholders come first, in their own order of first
      appearance. */
  lemma ExtractInputVariablesBracketsFirst(content: string)
    ensures var b := Dedupe(Tokens(Bracket, Scan(Bracket, content)));
            |b| <= |ExtractInputVariables(content)| && ExtractInputVariables(content)[..|b|] == b
  {
    var a := Tokens(Bracket, Scan(Bracket, content));
    var d := Tokens(UpperDollar, Scan(UpperDollar, content));
    if |a| > 0 {
      assert (a + d)[1..] == a[1..] + d;
      DedupeFromAppend(a[1..], d, [a[0]]);
    }
  }

  /** A placeholder of either syntax of the view occurs in the text. */
  ghost predicate Placeholder(content: string, t: string) {
    (exists name :: IsName(Bracket, name) && Contains(content, Token(Bracket, name)) && t == Token(Bracket, name))
    || (exists name :: IsName(UpperDollar, name) && Contains(content, Token(UpperDollar, name))
                       && t == Token(UpperDollar, name))
  }

  /** The extracted list holds exactly the placeholders of the text. */
  lemma ExtractInputVariablesComplete(content: string, t: string)
    ensures t in ExtractInputVariables(content) <==> Placeholder(content, t)
  {
    var b := Scan(Bracket, content);
    var d := Scan(UpperDollar, content);
    assert t in ExtractInputVariables(content) <==> t in Tokens(Bracket, b) || t in Tokens(UpperDollar, d);
    forall name
      ensures name in b <==> IsName(Bracket, name) && Contains(content, Token(Bracket, name))
      ensures name in d <==> IsName(UpperDollar, name) && Contains(content, Token(UpperDollar, name))
    {
      ScanComplete(Bracket, content, name);
      ScanComplete(UpperDollar, content, name);
    }
  }

  /** The variables offered for input: a supplied list, even an empty one,
      wins over extraction. */
  function OfferedVariables(prompt: Prompt): (r: seq<string>)
    ensures prompt.inputVariables.Some? ==> r == prompt.inputVariables.value
    ensures prompt.inputVariables.None? ==> forall t :: t in r ==> Placeholder(prompt.item.content, t)
    ensures prompt.inputVariables.None? ==> r == ExtractInputVariables(prompt.item.content)
  {
    if prompt.inputVariables.Some? then prompt.inputVariables.value
    else
      var r := ExtractInputVariables(prompt.item.content);
      forall t | t in r ensures Placeholder(prompt.item.content, t) {
        ExtractInputVariablesComplete(prompt.item.content, t);
      }
      r
  }

  predicate IsDelimiter(c: char) {
    c == '[' || c == ']' || c == '$' || c == '{' || c == '}'
  }

  /** cleanVar: the offered variable with every delimiter character removed. */
  function CleanVar(v: string): (r: string)
    ensures |r| <= |v|
    ensures forall c :: c in r <==> c in v && !IsDelimiter(c)
  {
    if |v| == 0 then ""
    else (if IsDelimiter(v[0]) then "" else [v[0]]) + CleanVar(v[1..])
  }

  lemma {:induction false} CleanVarKeeps(name: string, tail: string)
    requires forall c :: c in name ==> !IsDelimiter(c)
    requires forall c :: c in tail ==> IsDelimiter(c)
    ensures CleanVar(name + tail) == name
  {
    if |name| == 0 {
      assert name + tail == tail;
      CleanVarDrops(tail);
    } else {
      assert (name + tail)[1..] == name[1..] + tail;
      CleanVarKeeps(name[1..], tail);
    }
  }

  lemma {:induction false} CleanVarDrops(tail: string)
    requires forall c :: c in tail ==> IsDelimiter(c)
    ensures CleanVar(tail) == ""
  {
    if |tail| > 0 {
      CleanVarDrops(tail[1..]);
    }
  }

  /** The key of an extracted placeholder is its name. */
  lemma CleanVarOfToken(p: Pattern, name: string)
    requires p == Bracket || p == UpperDollar
    requires IsName(p, name)
    ensures CleanVar(Token(p, name)) == name
  {
    var open := Open(p);
    assert Token(p, name) == open + (name + [Close(p)]);
    CleanVarKeeps(name, [Close(p)]);
    if p == Bracket {
      assert Token(p, name)[1..] == name + [Close(p)];
    } else {
      assert Token(p, name)[2..] == name + [Close(p)];
      assert Token(p, name)[1..][1..] == name + [Close(p)];
    }
  }

  // ---------------------------------------------------------------------
  // Entered values: an object keyed by variable, in insertion order

  function Lookup(entries: seq<(string, string)>, key: string): Option<string> {
    if |entries| == 0 then None
    else if entries[0].0 == key then Some(entries[0].1)
    else Lookup(entries[1..], key)
  }

  function Keys(entries: seq<(string, string)>): (r: seq<string>)
    ensures |r| == |entries|
    ensures forall i :: 0 <= i < |r| ==> r[i] == entries[i].0
  {
    if |entries| == 0 then [] else [entries[0].0] + Keys(entries[1..])
  }

  /** `{ ...prev, [key]: value }`: an existing key keeps its place and
      takes the new value; a new key is added at the end. */
  function Assign(entries: seq<(string, string)>, key: string, value: string): (r: seq<(string, string)>)
    ensures |r| == |entries| || r == entries + [(key, value)]
  {
    if |entries| == 0 then [(key, value)]
    else if entries[0].0 == key then [(key, value)] + entries[1..]
    else [entries[0]] + Assign(entries[1..], key, value)
  }

  /** handleVariableChange: the changed key reads the new value and every
      other key reads what it read before. */
  lemma {:induction false} AssignLookup(entries: seq<(string, string)>, key: string, value: string, other: string)
    ensures Lookup(Assign(entries, key, value), key) == Some(value)
    ensures other != key ==> Lookup(Assign(entries, key, value), other) == Lookup(entries, other)
  {
    if |entries| > 0 && entries[0].0 != key {
      AssignLookup(entries[1..], key, value, other);
    }
  }

  /** Assigning keeps the key order and adds a new key at the end. */
  lemma {:induction false} KeysAssign(entries: seq<(string, string)>, key: string, value: string)
    ensures Keys(Assign(entries, key, value)) == if key in Keys(entries) then Keys(entries) else Keys(entries) + [key]
  {
    if |entries| > 0 {
      assert Keys(entries) == [entries[0].0] + Keys(entries[1..]);
      if entries[0].0 != key {
        KeysAssign(entries[1..], key, value);
        assert Keys(Assign(entries, key, value)) == [entries[0].0] + Keys(Assign(entries[1..], key, value));
      } else {
        assert Keys(Assign(entries, key, value)) == [key] + Keys(entries[1..]);
      }
    }
  }

  /** Assigning keeps the keys free of repeats. */
  lemma AssignKeysUnique(entries: seq<(string, string)>, key: string, value: string)
    requires NoDuplicates(Keys(entries))
    ensures NoDuplicates(Keys(Assign(entries, key, value)))
  {
    KeysAssign(entries, key, value);
  }

  // ---------------------------------------------------------------------
  // The preview

  /** A character with a meaning in a regular expression. */
  predicate IsPatternChar(c: char) {
    c in "\\^$.|?*+()[]{}"
  }

  /** A key that the expressions built from it match literally, and that
      `Object.entries` lists in insertion order: no pattern character, and
      not made only of digits. */
  predicate PlainKey(key: string) {
    && (forall c :: c in key ==> !IsPatternChar(c))
    && !(|key| > 0 && forall c :: c in key ==> IsDigit(c))
  }

  /** One entry of the preview: every `[key]`, then every `${key}`, becomes
      the value; an empty value puts the placeholder back. This is the
      literal reading of the two expressions, which the handler follows
      for a plain key. */
  function Substitute(text: string, key: string, value: string): string {
    var bracket := "[" + key + "]";
    var dollar := "${" + key + "}";
    var once := ReplaceAll(text, bracket, if value == "" then bracket else value);
    ReplaceAll(once, dollar, if value == "" then dollar else value)
  }

  /** The preview of a text after the entries, applied in order. */
  function PreviewOf(content: string, entries: seq<(string, string)>): string {
    if |entries| == 0 then content
    else
      var last := entries[|entries| - 1];
      Substitute(PreviewOf(content, entries[..|entries| - 1]), last.0, last.1)
  }

  /** An empty value leaves the text as it was. */
  lemma SubstituteEmpty(text: string, key: string)
    ensures Substitute(text, key, "") == text
  {
    ReplaceAllSelf(text, "[" + key + "]");
    ReplaceAllSelf(text, "${" + key + "}");
  }

  /** A key whose placeholders do not occur leaves the text as it was. */
  lemma SubstituteAbsent(text: string, key: string, value: string)
    requires !Contains(text, "[" + key + "]") && !Contains(text, "${" + key + "}")
    ensures Substitute(text, key, value) == text
  {
    ReplaceAllAbsent(text, "[" + key + "]", if value == "" then "[" + key + "]" else value);
    ReplaceAllAbsent(text, "${" + key + "}", if value == "" then "${" + key + "}" else value);
  }

  /** A value replaces every `[key]` put between the parts, and nothing
      else changes. */
  lemma SubstituteFillsBrackets(parts: seq<string>, key: string, value: string)
    requires |parts| >= 1 && PlainKey(key) && value != ""
    requires forall p :: p in parts ==> !Contains(p, "[" + key + "]")
    requires !Contains(JoinWith(parts, value), "${" + key + "}")
    ensures Substitute(JoinWith(parts, "[" + key + "]"), key, value) == JoinWith(parts, value)
  {
    var pat := "[" + key + "]";
    assert pat[1..] == key + "]";
    assert '[' !in key;
    ReplaceAllJoin(parts, pat, value);
    ReplaceAllAbsent(JoinWith(parts, value), "${" + key + "}", value);
  }

  /** A value replaces every `${key}` put between the parts, and nothing
      else changes. */
  lemma SubstituteFillsDollars(parts: seq<string>, key: string, value: string)
    requires |parts| >= 1 && PlainKey(key) && value != ""
    requires forall p :: p in parts ==> !Contains(p, "${" + key + "}")
    requires !Contains(JoinWith(parts, "${" + key + "}"), "[" + key + "]")
    ensures Substitute(JoinWith(parts, "${" + key + "}"), key, value) == JoinWith(parts, value)
  {
    var pat := "${" + key + "}";
    assert pat[1..] == "{" + key + "}";
    assert '$' !in key;
    ReplaceAllAbsent(JoinWith(parts, pat), "[" + key + "]", value);
    ReplaceAllJoin(parts, pat, value);
  }

  /** No `[name]` starts inside "[" + prefix. */
  lemma BracketNoEarlyMatch(prefix: string, value: string)
    requires value != "" && PlainKey(prefix + value)
    ensures var pat := "[" + (prefix + value) + "]";
            forall j :: 0 <= j < |"[" + prefix| ==> !OccursAt(("[" + prefix) + (pat + "]"), pat, j)
  {
    var key := prefix + value;
    var pat := "[" + key + "]";
    var a, b := "[" + prefix, pat + "]";
    var s := a + b;
    assert value[0] in key && '[' !in key;
    forall j | 0 <= j < |a| && j + |pat| <= |s| ensures !OccursAt(s, pat, j) {
      if j == 0 {
        assert s[..|pat|][|a|] == s[|a|] == '[' != value[0] == pat[|a|];
      } else {
        assert prefix[j - 1] in key;
        assert s[j..j + |pat|][0] == s[j] == prefix[j - 1] != '[';
      }
    }
  }

  /** A text that starts with the pattern has it replaced first. */
  lemma ReplaceAllHead(pat: string, t: string, rep: string)
    requires |pat| > 0
    ensures ReplaceAll(pat + t, pat, rep) == rep + ReplaceAll(t, pat, rep)
  {
    assert (pat + t)[..|pat|] == pat && (pat + t)[|pat|..] == t;
  }

  /** The bracket pass of `SubstituteSinglePass`. */
  lemma BracketPassOnce(prefix: string, value: string)
    requires value != "" && PlainKey(prefix + value)
    ensures ReplaceAll("[" + prefix + "[" + (prefix + value) + "]]", "[" + (prefix + value) + "]", value)
         == "[" + (prefix + value) + "]"
  {
    var key := prefix + value;
    var pat := "[" + key + "]";
    var a, b := "[" + prefix, pat + "]";
    assert a + b == "[" + prefix + "[" + key + "]]";
    BracketNoEarlyMatch(prefix, value);
    ReplaceAllFree(a, b, pat, value);
    ReplaceAllHead(pat, "]", value);
    assert ReplaceAll("]", pat, value) == "]";
    assert a + (value + "]") == pat;
  }

  /** Each expression is applied once, left to right: a value can complete
      a placeholder around it, and that placeholder stays in the preview.
      With name "key" and value "y", "[ke[key]]" becomes "[key]". */
  lemma SubstituteSinglePass(prefix: string, value: string)
    requires value != "" && PlainKey(prefix + value)
    ensures Substitute("[" + prefix + "[" + (prefix + value) + "]]", prefix + value, value)
         == "[" + (prefix + value) + "]"
  {
    var key := prefix + value;
    BracketPassOnce(prefix, value);
    ReplaceAllAbsent("[" + key + "]", "${" + key + "}", value);
  }

  /** Two different bracket placeholders: neither begins the other. */
  lemma BracketsApart(a: string, b: string)
    requires a != b && ']' !in a && ']' !in b
    ensures !StartsWith("[" + a + "]", "[" + b + "]")
  {
    var x, y := "[" + a + "]", "[" + b + "]";
    if |b| < |a| {
      assert a[|b|] in a;
      assert x[..|y|][|y| - 1] == a[|b|] != ']' == y[|y| - 1];
    } else if |b| == |a| {
      var i :| 0 <= i < |a| && a[i] != b[i];
      assert x[..|y|][i + 1] == a[i] != b[i] == y[i + 1];
    }
  }

  /** The bracket pass for another plain key keeps every `[k]`. */
  lemma BracketPassKeeps(text: string, key: string, rep: string, k: string)
    requires PlainKey(key) && PlainKey(k) && key != k
    requires Contains(text, "[" + k + "]")
    ensures Contains(ReplaceAll(text, "[" + key + "]", rep), "[" + k + "]")
  {
    var t, bracket := "[" + k + "]", "[" + key + "]";
    assert t[1..] == k + "]" && bracket[1..] == key + "]";
    assert '[' !in key && '[' !in k && ']' !in k && ']' !in key;
    BracketsApart(k, key);
    BracketsApart(key, k);
    ReplaceAllKeeps(text, bracket, rep, t);
  }

  /** The dollar pass for a plain key keeps every `[k]`. */
  lemma DollarPassKeeps(text: string, key: string, rep: string, k: string)
    requires PlainKey(key) && PlainKey(k)
    requires Contains(text, "[" + k + "]")
    ensures Contains(ReplaceAll(text, "${" + key + "}", rep), "[" + k + "]")
  {
    var t, dollar := "[" + k + "]", "${" + key + "}";
    assert t[1..] == k + "]" && dollar[1..] == "{" + key + "}";
    assert '[' !in key && '$' !in k;
    assert |t| <= |dollar| ==> dollar[..|t|][0] != t[0];
    assert |dollar| <= |t| ==> t[..|dollar|][0] != dollar[0];
    ReplaceAllKeeps(text, dollar, rep, t);
  }

  /** Substituting another plain key keeps every `[k]` of the text. */
  lemma SubstituteKeeps(text: string, key: string, value: string, k: string)
    requires PlainKey(key) && PlainKey(k) && key != k
    requires Contains(text, "[" + k + "]")
    ensures Contains(Substitute(text, key, value), "[" + k + "]")
  {
    var bracket, dollar := "[" + key + "]", "${" + key + "}";
    BracketPassKeeps(text, key, if value == "" then bracket else value, k);
    var once := ReplaceAll(text, bracket, if value == "" then bracket else value);
    DollarPassKeeps(once, key, if value == "" then dollar else value, k);
  }

  /** A placeholder `[k]` of the content whose key was never entered is
      still in the preview, whatever the other entries are. */
  lemma {:induction false} PreviewKeepsUnentered(content: string, entries: seq<(string, string)>, k: string)
    requires PlainKey(k) && k !in Keys(entries)
    requires forall i :: 0 <= i < |entries| ==> PlainKey(entries[i].0)
    requires Contains(content, "[" + k + "]")
    ensures Contains(PreviewOf(content, entries), "[" + k + "]")
  {
    if |entries| > 0 {
      var n := |entries|;
      var prefix := entries[..n - 1];
      assert forall i :: 0 <= i < n - 1 ==> Keys(prefix)[i] == Keys(entries)[i];
      assert Keys(entries)[n - 1] == entries[n - 1].0;
      PreviewKeepsUnentered(content, prefix, k);
      SubstituteKeeps(PreviewOf(content, prefix), entries[n - 1].0, entries[n - 1].1, k);
    }
  }

  /** With no value entered, the preview is the content itself. */
  lemma {:induction false} PreviewOfBlank(content: string, entries: seq<(string, string)>)
    requires forall i :: 0 <= i < |entries| ==> entries[i].1 == ""
    ensures PreviewOf(content, entries) == content
  {
    if |entries| > 0 {
      PreviewOfBlank(content, entries[..|entries| - 1]);
      SubstituteEmpty(content, entries[|entries| - 1].0);
    }
  }

  /** The text copied and downloaded: the preview when there is one. */
  function CopyText(preview: string, content: string): (r: string)
    ensures r == preview || r == content
    ensures preview != "" ==> r == preview
    ensures preview == "" ==> r == content
    ensures r == "" <==> preview == "" && content == ""
  {
    if preview != "" then preview else content
  }

  /** The download file name: white-space runs become "-", lower case,
      then ".txt". */
  function DownloadFilename(title: string): (r: string)
    ensures |r| >= 4 && r[|r| - 4..] == ".txt"
    ensures forall c :: c in r ==> !IsWhite(c) && !IsUpper(c)
    ensures r == ToLower(DashWhitespace(title)) + ".txt"
  {
    var dashed := DashWhitespace(title);
    var base := ToLower(dashed);
    forall i | 0 <= i < |base| ensures !IsWhite(base[i]) && !IsUpper(base[i]) {
      assert dashed[i] in dashed;
    }
    base + ".txt"
  }

  // ---------------------------------------------------------------------
  // Which layout is shown

  datatype View = TextEnhanceView | AdvisorView | McpView | GeneralView

  /** The platform wins over the format: text-enhance, then advisor, then
      the mcp format, otherwise the general layout. */
  function ViewFor(prompt: Prompt): (r: View)
    ensures r == TextEnhanceView <==> prompt.targetPlatform == Some(TextEnhance)
    ensures r == AdvisorView <==> prompt.targetPlatform == Some(Advisor)
    ensures r == McpView <==> prompt.format == Mcp && prompt.targetPlatform != Some(TextEnhance)
                              && prompt.targetPlatform != Some(Advisor)
  {
    if prompt.targetPlatform == Some(TextEnhance) then TextEnhanceView
    else if prompt.targetPlatform == Some(Advisor) then AdvisorView
    else if prompt.format == Mcp then McpView
    else GeneralView
  }

  // ---------------------------------------------------------------------
  // The component's state

  class ContentTabState {
    const prompt: Prompt
    var values: seq<(string, string)>
    var preview: string

    ghost predicate Valid()
      reads this
    {
      NoDuplicates(Keys(values))
    }

    constructor(prompt: Prompt)
      ensures this.prompt == prompt && values == [] && preview == "" && Valid()
    {
      this.prompt := prompt;
      values := [];
      preview := "";
    }

    /** handleVariableChange. */
    method HandleVariableChange(variable: string, value: string)
      requires Valid()
      modifies this
      ensures Valid()
      ensures values == Assign(old(values), variable, value) && preview == old(preview)
      ensures Lookup(values, variable) == Some(value)
      ensures forall k :: k != variable ==> Lookup(values, k) == Lookup(old(values), k)
    {
      AssignKeysUnique(values, variable, value);
      forall k | k != variable ensures Lookup(Assign(values, variable, value), k) == Lookup(values, k) {
        AssignLookup(values, variable, value, k);
      }
      AssignLookup(values, variable, value, variable);
      values := Assign(values, variable, value);
    }

    /** generatePreview: the content is never changed; only the preview is
        set. */
    method GeneratePreview()
      requires ViewFor(prompt) == AdvisorView || ViewFor(prompt) == GeneralView
      modifies this
      ensures values == old(values)
      ensures preview == PreviewOf(prompt.item.content, values)
    {
      var text := prompt.item.content;
      var i := 0;
      while i < |values|
        invariant 0 <= i <= |values|
        invariant text == PreviewOf(prompt.item.content, values[..i])
      {
        assert values[..i + 1][..i] == values[..i];
        text := Substitute(text, values[i].0, values[i].1);
        i := i + 1;
      }
      assert values[..|values|] == values;
      preview := text;
    }

    /** The copy button's and the download button's text. */
    function Shared(): (r: string)
      reads this
      ensures r == preview || r == prompt.item.content
      ensures preview != "" ==> r == preview
      ensures preview == "" ==> r == prompt.item.content
    {
      CopyText(preview, prompt.item.content)
    }
  }
}
