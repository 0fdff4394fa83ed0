/** Helpers shared by every module of the model: an optional value, the
    string operations the JavaScript runtime supplies (trim, toLowerCase,
    includes, a global replace), order-preserving filtering, a stable
    descending sort and the default string order of Array.prototype.sort. */
module Common {

  datatype Option<T> = None | Some(value: T)

  // ---------------------------------------------------------------------
  // Characters

  /** The white-space class of String.prototype.trim and of the regular
      expression `\s`, restricted to the characters listed here. */
  predicate IsWhite(c: char) {
    c == ' ' || c == '\t' || c == '\n' || c == '\r' || c == '\U{B}' || c == '\U{C}'
    || c == '\U{A0}' || c == '\U{2028}' || c == '\U{2029}' || c == '\U{FEFF}'
  }

  predicate IsUpper(c: char) { 'A' <= c <= 'Z' }

  predicate IsLetter(c: char) { 'A' <= c <= 'Z' || 'a' <= c <= 'z' }

  /** String.prototype.toLowerCase on one character (ASCII letters only). */
  function LowerChar(c: char): (r: char)
    ensures !IsUpper(r)
    ensures IsUpper(c) ==> r as int == c as int + 32
    ensures !IsUpper(c) ==> r == c
  {
    if IsUpper(c) then (c as int + 32) as char else c
  }

  function ToLower(s: string): (r: string)
    ensures |r| == |s|
    ensures forall i :: 0 <= i < |s| ==> r[i] == LowerChar(s[i])
  {
    seq(|s|, i requires 0 <= i < |s| => LowerChar(s[i]))
  }

  lemma ToLowerIdempotent(s: string)
    ensures ToLower(ToLower(s)) == ToLower(s)
  {
  }

  // ---------------------------------------------------------------------
  // Substrings

  predicate StartsWith(s: string, prefix: string) {
    |prefix| <= |s| && s[..|prefix|] == prefix
  }

  /** `needle` occurs in `hay` starting at index `i`. */
  predicate OccursAt(hay: string, needle: string, i: int) {
    0 <= i && i + |needle| <= |hay| && hay[i..i + |needle|] == needle
  }

  /** String.prototype.includes. */
  predicate Contains(hay: string, needle: string) {
    exists i | 0 <= i <= |hay| - |needle| :: OccursAt(hay, needle, i)
  }

  /** `text.toLowerCase().includes(searchLower)`. */
  predicate IncludesLower(text: string, searchLower: string) {
    Contains(ToLower(text), searchLower)
  }

  /** Every character of a contained string is a character of the container. */
  lemma ContainsChars(hay: string, needle: string)
    requires Contains(hay, needle)
    ensures forall c :: c in needle ==> c in hay
  {
    var i :| 0 <= i <= |hay| - |needle| && OccursAt(hay, needle, i);
    forall c | c in needle ensures c in hay {
      var k :| 0 <= k < |needle| && needle[k] == c;
      assert hay[i + k] == c;
    }
  }

  /** The middle part of a concatenation is contained in it. */
  lemma ContainsMiddle(a: string, b: string, c: string)
    ensures Contains(a + b + c, b)
  {
    assert (a + b + c)[|a|..|a| + |b|] == b;
    assert OccursAt(a + b + c, b, |a|);
  }

  /** Trimming a string that has no white space at its ends, followed by
      white space, gives back the string. */
  lemma TrimTrailingWhite(x: string, w: string)
    requires |x| > 0 && !IsWhite(x[0]) && !IsWhite(x[|x| - 1])
    requires forall c :: c in w ==> IsWhite(c)
    ensures Trim(x + w) == x
    decreases |w|
  {
    TrimStartNoop(x + w);
    if |w| == 0 {
      assert x + w == x;
      TrimEndNoop(x);
    } else {
      assert (x + w)[..|x + w| - 1] == x + w[..|w| - 1];
      assert w[|w| - 1] in w;
      TrimTrailingWhite(x, w[..|w| - 1]);
      TrimStartNoop(x + w[..|w| - 1]);
    }
  }

  /** The pieces of a text template, joined in order. */
  function Concat(parts: seq<string>): (r: string)
    ensures |parts| > 0 ==> StartsWith(r, parts[0])
  {
    if |parts| == 0 then "" else parts[0] + Concat(parts[1..])
  }

  /** Every piece of a joined template occurs in it. */
  lemma {:induction false} ConcatContains(parts: seq<string>, i: nat)
    requires i < |parts|
    ensures Contains(Concat(parts), parts[i])
  {
    var r := Concat(parts);
    if i == 0 {
      assert r[..|parts[0]|] == parts[0];
      assert OccursAt(r, parts[0], 0);
    } else {
      var rest := Concat(parts[1..]);
      ConcatContains(parts[1..], i - 1);
      var k :| 0 <= k <= |rest| - |parts[i]| && OccursAt(rest, parts[i], k);
      assert r[|parts[0]| + k..|parts[0]| + k + |parts[i]|] == rest[k..k + |parts[i]|];
      assert OccursAt(r, parts[i], |parts[0]| + k);
    }
  }

  /** A joined template ends with the last character of its last piece. */
  lemma {:induction false} ConcatLast(parts: seq<string>)
    requires |parts| > 0 && |parts[|parts| - 1]| > 0
    ensures |Concat(parts)| > 0
    ensures Concat(parts)[|Concat(parts)| - 1] == parts[|parts| - 1][|parts[|parts| - 1]| - 1]
  {
    if |parts| > 1 {
      ConcatLast(parts[1..]);
    }
  }

  // ---------------------------------------------------------------------
  // Numbers as text

  predicate IsDigit(c: char) { '0' <= c <= '9' }

  /** The number a text of decimal digits denotes, most significant first. */
  function DigitsValue(s: string): nat
    requires forall c :: c in s ==> IsDigit(c)
  {
    if |s| == 0 then 0
    else
      assert s[|s| - 1] in s;
      assert forall c :: c in s[..|s| - 1] ==> c in s;
      var c := s[|s| - 1];
      assert IsDigit(c);
      var d := c as int - '0' as int;
      DigitsValue(s[..|s| - 1]) * 10 + d
  }

  /** The decimal text of a non-negative integer, without leading zeros. */
  function NatToString(n: nat): (r: string)
    ensures |r| > 0 && forall c :: c in r ==> IsDigit(c)
    ensures n < 10 <==> |r| == 1
    ensures DigitsValue(r) == n
    ensures |r| > 1 ==> r[0] != '0'
  {
    var d := ['0' + (n % 10) as char];
    if n < 10 then d
    else
      var r := NatToString(n / 10) + d;
      assert r[..|r| - 1] == NatToString(n / 10);
      r
  }

  lemma {:induction false} NatToStringInjective(a: nat, b: nat)
    requires NatToString(a) == NatToString(b)
    ensures a == b
  {
    var s := NatToString(a);
    assert s[|s| - 1] == '0' + (a % 10) as char;
    assert NatToString(b)[|s| - 1] == '0' + (b % 10) as char;
    if a >= 10 {
      assert NatToString(a / 10) == s[..|s| - 1] == NatToString(b / 10);
      NatToStringInjective(a / 10, b / 10);
    }
  }

  // ---------------------------------------------------------------------
  // Trimming and character removal

  function TrimStart(s: string): (r: string)
    ensures |r| <= |s| && r == s[|s| - |r|..]
    ensures |r| > 0 ==> !IsWhite(r[0])
    ensures |s| > 0 && IsWhite(s[0]) ==> |r| < |s|
    ensures forall i :: 0 <= i < |s| - |r| ==> IsWhite(s[i])
  {
    if |s| > 0 && IsWhite(s[0]) then
      var t := TrimStart(s[1..]);
      assert s[1..][|s| - 1 - |t|..] == s[|s| - |t|..];
      assert forall i :: 1 <= i < |s| - |t| ==> s[i] == s[1..][i - 1];
      t
    else s
  }

  function TrimEnd(s: string): (r: string)
    ensures |r| <= |s| && r == s[..|r|]
    ensures |r| > 0 ==> !IsWhite(r[|r| - 1])
    ensures forall i :: |r| <= i < |s| ==> IsWhite(s[i])
  {
    if |s| > 0 && IsWhite(s[|s| - 1]) then TrimEnd(s[..|s| - 1]) else s
  }

  lemma TrimEndKeepsStart(s: string)
    requires |s| > 0 && !IsWhite(s[0])
    ensures |TrimEnd(s)| > 0 && TrimEnd(s)[0] == s[0]
  {
  }

  /** Every character is white space. */
  predicate AllWhite(w: string) {
    forall i :: 0 <= i < |w| ==> IsWhite(w[i])
  }

  /** `r` is a slice of `s` with nothing but white space before and after it. */
  ghost predicate TrimmedFrom(s: string, r: string) {
    exists i :: 0 <= i <= |s| - |r| && s[i..i + |r|] == r && AllWhite(s[..i]) && AllWhite(s[i + |r|..])
  }

  /** String.prototype.trim: the text with the white space at both ends
      removed and everything between kept. */
  function Trim(s: string): (r: string)
    ensures |r| <= |s|
    ensures |r| > 0 ==> !IsWhite(r[0]) && !IsWhite(r[|r| - 1])
    ensures Contains(s, r)
    ensures TrimmedFrom(s, r)
  {
    var t := TrimStart(s);
    var r := if |t| > 0 then TrimEndKeepsStart(t); TrimEnd(t) else t;
    var k := |s| - |t|;
    assert r == t[..|r|] && t == s[k..];
    assert s[k..k + |r|] == r;
    assert OccursAt(s, r, k);
    TrimParts(s, t, r, k);
    r
  }

  /** The slice left by trimming the start and then the end has only white
      space around it. */
  lemma TrimParts(s: string, t: string, r: string, k: nat)
    requires k == |s| - |t| && t == s[k..] && |r| <= |t| && r == t[..|r|]
    requires forall i :: 0 <= i < k ==> IsWhite(s[i])
    requires forall i :: |r| <= i < |t| ==> IsWhite(t[i])
    ensures TrimmedFrom(s, r)
  {
    var tail := s[k + |r|..];
    forall j | 0 <= j < |tail| ensures IsWhite(tail[j]) {
      assert tail[j] == t[|r| + j];
    }
    assert s[k..k + |r|] == r && AllWhite(s[..k]) && AllWhite(tail);
  }

  lemma {:induction false} TrimStartNoop(s: string)
    requires |s| == 0 || !IsWhite(s[0])
    ensures TrimStart(s) == s
  {
  }

  lemma {:induction false} TrimEndNoop(s: string)
    requires |s| == 0 || !IsWhite(s[|s| - 1])
    ensures TrimEnd(s) == s
  {
  }

  /** Trimming twice gives what trimming once gives. */
  lemma TrimIdempotent(s: string)
    ensures Trim(Trim(s)) == Trim(s)
  {
    var t := Trim(s);
    TrimStartNoop(t);
    TrimEndNoop(t);
  }

  /** `s.replace(/[<>]/g, "")`. */
  function StripAngles(s: string): (r: string)
    ensures |r| <= |s|
    ensures forall c :: c in r <==> c in s && c != '<' && c != '>'
  {
    if |s| == 0 then ""
    else if s[0] == '<' || s[0] == '>' then StripAngles(s[1..])
    else [s[0]] + StripAngles(s[1..])
  }

  /** Stripping works character by character: a concatenation is stripped
      part by part. */
  lemma {:induction false} StripAnglesAppend(a: string, b: string)
    ensures StripAngles(a + b) == StripAngles(a) + StripAngles(b)
  {
    if |a| == 0 {
      assert a + b == b;
    } else {
      assert (a + b)[1..] == a[1..] + b;
      StripAnglesAppend(a[1..], b);
    }
  }

  /** A single character is dropped iff it is an angle bracket. */
  lemma StripAnglesChar(c: char)
    ensures StripAngles([c]) == if c == '<' || c == '>' then "" else [c]
  {
  }

  lemma {:induction false} StripAnglesNoop(s: string)
    requires '<' !in s && '>' !in s
    ensures StripAngles(s) == s
  {
    if |s| > 0 {
      StripAnglesNoop(s[1..]);
    }
  }

  /** `s.replace(/\s+/g, "-")`: every maximal run of white space becomes one dash. */
  function DashWhitespace(s: string): (r: string)
    ensures forall c :: c in r ==> !IsWhite(c)
    ensures forall c :: c in s && !IsWhite(c) ==> c in r
    decreases |s|
  {
    if |s| == 0 then ""
    else if IsWhite(s[0]) then "-" + DashWhitespace(TrimStart(s))
    else [s[0]] + DashWhitespace(s[1..])
  }

  /** Every character of the result is a dash or a character of the text. */
  lemma {:induction false} DashWhitespaceChars(s: string)
    ensures forall c :: c in DashWhitespace(s) ==> c == '-' || c in s
    decreases |s|
  {
    if |s| > 0 {
      if IsWhite(s[0]) {
        var t := TrimStart(s);
        DashWhitespaceChars(t);
        assert forall c :: c in t ==> c in s;
      } else {
        DashWhitespaceChars(s[1..]);
      }
    }
  }

  /** No character is white space. */
  predicate NoWhite(w: string) {
    forall i :: 0 <= i < |w| ==> !IsWhite(w[i])
  }

  lemma DashCons(c: char, t: string)
    requires !IsWhite(c)
    ensures DashWhitespace([c] + t) == [c] + DashWhitespace(t)
  {
    assert ([c] + t)[1..] == t;
  }

  /** A word without white space passes through unchanged. */
  lemma {:induction false} DashWord(word: string, t: string)
    requires NoWhite(word)
    ensures DashWhitespace(word + t) == word + DashWhitespace(t)
  {
    if |word| > 0 {
      var w1 := word[1..];
      NoWhiteTail(word);
      DashWord(w1, t);
      ConsSplit(word, t);
      DashCons(word[0], w1 + t);
      ConsSplit(word, DashWhitespace(t));
    } else {
      assert word + t == t;
    }
  }

  lemma ConsSplit<T>(s: seq<T>, t: seq<T>)
    requires |s| > 0
    ensures s + t == [s[0]] + (s[1..] + t)
  {
  }

  lemma NoWhiteTail(w: string)
    requires |w| > 0 && NoWhite(w)
    ensures NoWhite(w[1..])
  {
    forall i | 0 <= i < |w| - 1 ensures !IsWhite(w[1..][i]) {
      assert w[1..][i] == w[i + 1];
    }
  }

  /** Trimming the start removes exactly a leading white-space run. */
  lemma {:induction false} TrimStartRun(w: string, t: string)
    requires AllWhite(w)
    requires |t| == 0 || !IsWhite(t[0])
    ensures TrimStart(w + t) == t
  {
    if |w| > 0 {
      assert (w + t)[1..] == w[1..] + t;
      TrimStartRun(w[1..], t);
    } else {
      assert w + t == t;
    }
  }

  /** A white-space run before a word becomes one dash. */
  lemma DashRun(w: string, t: string)
    requires |w| > 0 && AllWhite(w)
    requires |t| == 0 || !IsWhite(t[0])
    ensures DashWhitespace(w + t) == "-" + DashWhitespace(t)
  {
    assert (w + t)[0] == w[0];
    TrimStartRun(w, t);
  }

  lemma JoinWithCons(parts: seq<string>, sep: string)
    requires |parts| >= 2
    ensures JoinWith(parts, sep) == parts[0] + (sep + JoinWith(parts[1..], sep))
  {
  }

  lemma JoinWithStart(parts: seq<string>, sep: string)
    requires |parts| >= 1 && |parts[0]| > 0
    ensures |JoinWith(parts, sep)| > 0 && JoinWith(parts, sep)[0] == parts[0][0]
  {
  }

  /** Words separated by white-space runs come out separated by single
      dashes. */
  lemma {:induction false} DashWhitespaceJoin(words: seq<string>, sep: string)
    requires |words| >= 1 && |sep| > 0 && AllWhite(sep)
    requires forall i :: 0 <= i < |words| ==> |words[i]| > 0 && NoWhite(words[i])
    ensures DashWhitespace(JoinWith(words, sep)) == JoinWith(words, "-")
  {
    if |words| == 1 {
      DashWord(words[0], "");
      assert words[0] + "" == words[0];
    } else {
      var rest := JoinWith(words[1..], sep);
      JoinWithCons(words, sep);
      DashWord(words[0], sep + rest);
      JoinWithStart(words[1..], sep);
      DashRun(sep, rest);
      DashWhitespaceJoin(words[1..], sep);
      JoinWithCons(words, "-");
    }
  }

  /** Each word lower-cased. */
  function LowerAll(words: seq<string>): (r: seq<string>)
    ensures |r| == |words|
    ensures forall i :: 0 <= i < |words| ==> r[i] == ToLower(words[i])
  {
    seq(|words|, i requires 0 <= i < |words| => ToLower(words[i]))
  }

  lemma ToLowerAppend(a: string, b: string)
    ensures ToLower(a + b) == ToLower(a) + ToLower(b)
  {
    assert forall i :: 0 <= i < |a + b| ==> ToLower(a + b)[i] == (ToLower(a) + ToLower(b))[i];
  }

  /** Lower-casing keeps white space and never makes any. */
  lemma LowerKeepsWhite(w: string)
    ensures AllWhite(w) ==> AllWhite(ToLower(w))
    ensures NoWhite(w) ==> NoWhite(ToLower(w))
  {
  }

  lemma {:induction false} ToLowerJoin(words: seq<string>, sep: string)
    requires |words| >= 1
    ensures ToLower(JoinWith(words, sep)) == JoinWith(LowerAll(words), ToLower(sep))
  {
    if |words| > 1 {
      ToLowerJoin(words[1..], sep);
      assert LowerAll(words[1..]) == LowerAll(words)[1..];
      ToLowerAppend(words[0] + sep, JoinWith(words[1..], sep));
      ToLowerAppend(words[0], sep);
    }
  }

  lemma {:induction false} JoinWithAppend(a: seq<string>, b: seq<string>, sep: string)
    requires |a| >= 1 && |b| >= 1
    ensures JoinWith(a + b, sep) == JoinWith(a, sep) + sep + JoinWith(b, sep)
  {
    if |a| > 1 {
      assert (a + b)[1..] == a[1..] + b;
      JoinWithAppend(a[1..], b, sep);
    } else {
      assert (a + b)[1..] == b;
    }
  }

  /** A global, literal String.prototype.replace: leftmost non-overlapping
      occurrences of `pat`, scanning left to right, become `rep`. */
  function ReplaceAll(s: string, pat: string, rep: string): string
    requires |pat| > 0
    decreases |s|
  {
    if |s| < |pat| then s
    else if s[..|pat|] == pat then rep + ReplaceAll(s[|pat|..], pat, rep)
    else [s[0]] + ReplaceAll(s[1..], pat, rep)
  }

  /** Replacing a pattern by itself changes nothing. */
  lemma {:induction false} ReplaceAllSelf(s: string, pat: string)
    requires |pat| > 0
    ensures ReplaceAll(s, pat, pat) == s
    decreases |s|
  {
    if |s| >= |pat| {
      if s[..|pat|] == pat {
        ReplaceAllSelf(s[|pat|..], pat);
        assert s == pat + s[|pat|..];
      } else {
        ReplaceAllSelf(s[1..], pat);
        assert s == [s[0]] + s[1..];
      }
    }
  }

  /** A string without the pattern is left as it is. */
  lemma {:induction false} ReplaceAllAbsent(s: string, pat: string, rep: string)
    requires |pat| > 0 && !Contains(s, pat)
    ensures ReplaceAll(s, pat, rep) == s
    decreases |s|
  {
    if |s| >= |pat| {
      assert !OccursAt(s, pat, 0);
      assert !Contains(s[1..], pat) by {
        forall i | OccursAt(s[1..], pat, i)
          ensures false
        {
          assert s[1..][i..i + |pat|] == s[i + 1..i + 1 + |pat|];
          assert OccursAt(s, pat, i + 1);
        }
      }
      ReplaceAllAbsent(s[1..], pat, rep);
      assert s == [s[0]] + s[1..];
    }
  }

  /** No occurrence of the pattern starts inside `a`, so the scan passes
      over `a` unchanged. */
  lemma {:induction false} ReplaceAllFree(a: string, b: string, pat: string, rep: string)
    requires |pat| > 0
    requires forall j :: 0 <= j < |a| ==> !OccursAt(a + b, pat, j)
    ensures ReplaceAll(a + b, pat, rep) == a + ReplaceAll(b, pat, rep)
    decreases |a|
  {
    if |a| > 0 {
      var s := a + b;
      if |s| < |pat| {
        assert ReplaceAll(b, pat, rep) == b;
      } else {
        assert !OccursAt(s, pat, 0);
        assert s[0..|pat|] == s[..|pat|];
        assert ReplaceAll(s, pat, rep) == [s[0]] + ReplaceAll(s[1..], pat, rep);
        assert s[1..] == a[1..] + b;
        forall j | 0 <= j < |a| - 1 ensures !OccursAt(a[1..] + b, pat, j) {
          assert !OccursAt(s, pat, j + 1);
          if j + |pat| <= |s| - 1 {
            assert s[1..][j..j + |pat|] == s[j + 1..j + 1 + |pat|];
          }
        }
        ReplaceAllFree(a[1..], b, pat, rep);
        var r := ReplaceAll(b, pat, rep);
        assert [a[0]] + (a[1..] + r) == ([a[0]] + a[1..]) + r;
        assert [a[0]] + a[1..] == a;
      }
    } else {
      assert a + b == b && a + ReplaceAll(b, pat, rep) == ReplaceAll(b, pat, rep);
    }
  }

  /** The parts with `sep` between each two. */
  function JoinWith(parts: seq<string>, sep: string): string
    requires |parts| >= 1
  {
    if |parts| == 1 then parts[0] else parts[0] + sep + JoinWith(parts[1..], sep)
  }

  /** A pattern whose first character does not recur in it is replaced at
      exactly the places it was put, when no part holds it. */
  lemma {:induction false} ReplaceAllJoin(parts: seq<string>, pat: string, rep: string)
    requires |parts| >= 1 && |pat| > 0 && pat[0] !in pat[1..]
    requires forall p :: p in parts ==> !Contains(p, pat)
    ensures ReplaceAll(JoinWith(parts, pat), pat, rep) == JoinWith(parts, rep)
  {
    if |parts| == 1 {
      ReplaceAllAbsent(parts[0], pat, rep);
    } else {
      var a := parts[0];
      var rest := JoinWith(parts[1..], pat);
      var s := a + (pat + rest);
      assert s == JoinWith(parts, pat);
      assert a in parts;
      forall j | 0 <= j < |a| ensures !OccursAt(s, pat, j) {
        if j + |pat| <= |a| {
          assert !OccursAt(a, pat, j);
          assert s[j..j + |pat|] == a[j..j + |pat|];
        } else if j + |pat| <= |s| {
          var d := |a| - j;
          assert pat[1..][d - 1] in pat[1..];
          assert s[j..j + |pat|][d] == s[|a|] == pat[0] != pat[d];
        }
      }
      ReplaceAllFree(a, pat + rest, pat, rep);
      assert (pat + rest)[..|pat|] == pat && (pat + rest)[|pat|..] == rest;
      ReplaceAllJoin(parts[1..], pat, rep);
    }
  }

  lemma ContainsAfter(a: string, b: string, t: string)
    requires Contains(b, t)
    ensures Contains(a + b, t)
  {
    var i :| 0 <= i <= |b| - |t| && OccursAt(b, t, i);
    assert (a + b)[|a| + i..|a| + i + |t|] == b[i..i + |t|];
    assert OccursAt(a + b, t, |a| + i);
  }

  /** Where the pattern starts the text, an occurrence of `t` that cannot
      overlap it starts after it. */
  lemma PatternFirst(s: string, pat: string, t: string, i: int)
    requires |pat| > 0 && |t| > 0 && |pat| <= |s| && s[..|pat|] == pat
    requires OccursAt(s, t, i)
    requires t[0] !in pat[1..] && !StartsWith(pat, t) && !StartsWith(t, pat)
    ensures i >= |pat|
  {
    forall k | 0 < k < |pat| && k + |t| <= |s| ensures !OccursAt(s, t, k) {
      assert pat[1..][k - 1] in pat[1..];
      assert s[k..k + |t|][0] == s[k] == pat[k] != t[0];
    }
    if |t| <= |pat| {
      assert s[..|t|] == pat[..|t|] != t;
    } else {
      assert s[..|t|][..|pat|] == pat != t[..|pat|];
    }
  }

  /** Where `t` starts the text, no occurrence of a pattern that cannot
      overlap it starts inside it. */
  lemma TargetFirst(s: string, pat: string, t: string)
    requires |pat| > 0 && |t| > 0 && OccursAt(s, t, 0)
    requires pat[0] !in t[1..] && !StartsWith(pat, t) && !StartsWith(t, pat)
    ensures forall j :: 0 <= j < |t| ==> !OccursAt(s, pat, j)
  {
    forall j | 0 < j < |t| && j + |pat| <= |s| ensures !OccursAt(s, pat, j) {
      assert t[1..][j - 1] in t[1..];
      assert s[j..j + |pat|][0] == s[j] == t[j] != pat[0];
    }
    if |pat| <= |t| {
      assert s[..|pat|] == t[..|pat|] != pat;
    } else if |pat| <= |s| {
      assert s[..|pat|][..|t|] == t != pat[..|t|];
    }
  }

  /** An occurrence of `t` survives the replacement when no occurrence of
      the pattern can overlap it: neither starts inside the other, and
      neither is a prefix of the other. */
  lemma {:induction false} ReplaceAllKeeps(s: string, pat: string, rep: string, t: string)
    requires |pat| > 0 && |t| > 0 && Contains(s, t)
    requires t[0] !in pat[1..] && pat[0] !in t[1..]
    requires !StartsWith(pat, t) && !StartsWith(t, pat)
    ensures Contains(ReplaceAll(s, pat, rep), t)
    decreases |s|
  {
    var i :| 0 <= i <= |s| - |t| && OccursAt(s, t, i);
    if |s| < |pat| {
    } else if s[..|pat|] == pat {
      PatternFirst(s, pat, t, i);
      assert s[|pat|..][i - |pat|..i - |pat| + |t|] == s[i..i + |t|];
      assert OccursAt(s[|pat|..], t, i - |pat|);
      ReplaceAllKeeps(s[|pat|..], pat, rep, t);
      ContainsAfter(rep, ReplaceAll(s[|pat|..], pat, rep), t);
    } else if i > 0 {
      assert s[1..][i - 1..i - 1 + |t|] == s[i..i + |t|];
      assert OccursAt(s[1..], t, i - 1);
      ReplaceAllKeeps(s[1..], pat, rep, t);
      ContainsAfter([s[0]], ReplaceAll(s[1..], pat, rep), t);
    } else {
      assert s == t + s[|t|..];
      TargetFirst(s, pat, t);
      ReplaceAllFree(t, s[|t|..], pat, rep);
      assert OccursAt(t + ReplaceAll(s[|t|..], pat, rep), t, 0);
    }
  }

  // ---------------------------------------------------------------------
  // Splitting text at a separator

  function FirstIndex(s: string, c: char): (i: nat)
    requires c in s
    ensures i < |s| && s[i] == c && c !in s[..i]
  {
    if s[0] == c then 0
    else
      var j := FirstIndex(s[1..], c);
      assert s[..j + 1] == [s[0]] + s[1..][..j];
      j + 1
  }

  /** String.prototype.split with a one-character separator. */
  function Split(s: string, sep: char): (r: seq<string>)
    ensures |r| >= 1
    ensures forall p :: p in r ==> sep !in p
    decreases |s|
  {
    if sep !in s then [s]
    else
      var i := FirstIndex(s, sep);
      [s[..i]] + Split(s[i + 1..], sep)
  }

  /** The first piece of a split is the text up to the first separator. */
  lemma SplitHead(s: string, sep: char)
    ensures sep !in s ==> Split(s, sep) == [s]
    ensures sep in s ==> Split(s, sep)[0] == s[..FirstIndex(s, sep)]
    ensures sep in s ==> |Split(s, sep)| > 1 && Split(s, sep)[1] == Split(s[FirstIndex(s, sep) + 1..], sep)[0]
    ensures Split(s, sep)[0] <= s
  {
  }

  /** Array.prototype.join. */
  function Join(parts: seq<string>, sep: char): string
    requires |parts| >= 1
  {
    if |parts| == 1 then parts[0] else parts[0] + [sep] + Join(parts[1..], sep)
  }

  /** Splitting loses nothing: joining the pieces gives the text back. */
  lemma {:induction false} SplitJoin(s: string, sep: char)
    ensures Join(Split(s, sep), sep) == s
    decreases |s|
  {
    if sep in s {
      var i := FirstIndex(s, sep);
      var parts := Split(s, sep);
      var rest := Split(s[i + 1..], sep);
      assert parts[0] == s[..i] && parts[1..] == rest;
      assert Join(parts, sep) == s[..i] + [sep] + Join(rest, sep);
      SplitJoin(s[i + 1..], sep);
      assert s == s[..i] + [sep] + s[i + 1..];
    }
  }

  /** A suffix is the slice up to a later point followed by the rest. */
  lemma SliceJoin<T>(s: seq<T>, k: nat, n: nat)
    requires k <= n <= |s|
    ensures s[k..] == s[k..n] + s[n..]
  {
  }

  /** A text that starts with `t` agrees with `t` on every slice of it. */
  lemma PrefixSlice<T>(s: seq<T>, t: seq<T>, i: nat, j: nat)
    requires |t| <= |s| && s[..|t|] == t && i <= j <= |t|
    ensures s[i..j] == t[i..j]
  {
    forall k | 0 <= k < j - i
      ensures s[i..j][k] == t[i..j][k]
    {
      assert s[i + k] == s[..|t|][i + k];
    }
  }

  /** The number of times a character occurs. */
  function CharCount(s: string, c: char): nat {
    if |s| == 0 then 0 else (if s[0] == c then 1 else 0) + CharCount(s[1..], c)
  }

  /** Splitting at a character gives one more piece than it has occurrences. */
  lemma {:induction false} SplitCount(s: string, sep: char)
    ensures |Split(s, sep)| == CharCount(s, sep) + 1
    decreases |s|
  {
    if sep !in s {
      CharCountAbsent(s, sep);
    } else {
      var i := FirstIndex(s, sep);
      SplitCount(s[i + 1..], sep);
      CharCountSplit(s, sep, i);
    }
  }

  lemma {:induction false} CharCountAbsent(s: string, c: char)
    requires c !in s
    ensures CharCount(s, c) == 0
  {
    if |s| > 0 {
      CharCountAbsent(s[1..], c);
    }
  }

  /** Counting across the first occurrence at index i. */
  lemma {:induction false} CharCountSplit(s: string, c: char, i: nat)
    requires i < |s| && s[i] == c && c !in s[..i]
    ensures CharCount(s, c) == 1 + CharCount(s[i + 1..], c)
  {
    if i > 0 {
      assert s[1..][..i - 1] == s[1..i];
      assert c !in s[1..][..i - 1] by {
        assert forall x :: x in s[1..i] ==> x in s[..i];
      }
      CharCountSplit(s[1..], c, i - 1);
      assert s[1..][i..] == s[i + 1..];
    }
  }

  // ---------------------------------------------------------------------
  // Percentages

  /** `Math.round(part / whole * 100)` on whole numbers: adding a half and
      rounding down. */
  function RoundedPercent(part: nat, whole: nat): (n: int)
    requires whole > 0
    ensures 2 * whole * n - whole <= 200 * part < 2 * whole * n + whole
    ensures part <= whole ==> 0 <= n <= 100
    ensures part == 0 ==> n == 0
    ensures part == whole ==> n == 100
  {
    var n := (200 * part + whole) / (2 * whole);
    RoundingBounds(part, whole, n);
    n
  }

  lemma RoundingBounds(part: nat, whole: nat, n: int)
    requires whole > 0 && n == (200 * part + whole) / (2 * whole)
    ensures 2 * whole * n - whole <= 200 * part < 2 * whole * n + whole
    ensures part <= whole ==> 0 <= n <= 100
    ensures part == 0 ==> n == 0
    ensures part == whole ==> n == 100
  {
    var d := 2 * whole;
    var total := 200 * part + whole;
    DivBounds(total, d, n);
    if n < 0 {
      MulLe(d, n, -1);
    }
    if part <= whole && n > 100 {
      MulLe(d, 101, n);
    }
    if part == 0 && n > 0 {
      MulLe(d, 1, n);
    }
    if part == whole && n < 100 {
      MulLe(d, n, 99);
    }
  }

  lemma DivBounds(total: int, d: int, n: int)
    requires d > 0 && n == total / d
    ensures d * n <= total < d * n + d
  {
  }

  lemma MulLe(d: nat, a: int, b: int)
    requires a <= b
    ensures d * a <= d * b
  {
  }

  // ---------------------------------------------------------------------
  // Sequences

  /** Array.prototype.filter: keeps, in order, the elements satisfying `p`,
      each as often as it occurs. */
  function Filter<T(!new)>(s: seq<T>, p: T -> bool): (r: seq<T>)
    ensures |r| <= |s|
    ensures forall x :: x in r <==> x in s && p(x)
    ensures multiset(r) <= multiset(s)
  {
    if |s| == 0 then []
    else
      var rest := Filter(s[1..], p);
      assert s == [s[0]] + s[1..];
      assert forall x :: x in s <==> x == s[0] || x in s[1..];
      (if p(s[0]) then [s[0]] else []) + rest
  }

  /** The filter keeps every occurrence of a matching element and none of
      the others. */
  lemma {:induction false} FilterCount<T(!new)>(s: seq<T>, p: T -> bool, x: T)
    ensures multiset(Filter(s, p))[x] == if p(x) then multiset(s)[x] else 0
  {
    if |s| > 0 {
      FilterCount(s[1..], p, x);
      assert s == [s[0]] + s[1..];
    }
  }

  /** Filtering a concatenation filters each part, keeping their order. */
  lemma {:induction false} FilterConcat<T(!new)>(a: seq<T>, b: seq<T>, p: T -> bool)
    ensures Filter(a + b, p) == Filter(a, p) + Filter(b, p)
  {
    if |a| == 0 {
      assert a + b == b;
    } else {
      assert (a + b)[1..] == a[1..] + b;
      FilterConcat(a[1..], b, p);
    }
  }

  /** One stage of a chain of filters over a list that may have gained `x`
      at its end. */
  lemma FilterStep<T(!new)>(a: seq<T>, b: seq<T>, x: T, keep: bool, p: T -> bool)
    requires a == b + (if keep then [x] else [])
    ensures Filter(a, p) == Filter(b, p) + (if keep && p(x) then [x] else [])
  {
    if keep {
      FilterAppend(b, x, p);
    } else {
      assert a == b;
    }
  }

  /** Filtering element by element from the front: a matching last element
      is kept last. */
  lemma FilterAppend<T(!new)>(s: seq<T>, x: T, p: T -> bool)
    ensures Filter(s + [x], p) == Filter(s, p) + (if p(x) then [x] else [])
  {
    FilterConcat(s, [x], p);
  }

  /** Two successive filters are one filter by the conjunction. */
  lemma {:induction false} FilterFilter<T(!new)>(s: seq<T>, p: T -> bool, q: T -> bool, pq: T -> bool)
    requires forall x :: pq(x) == (p(x) && q(x))
    ensures Filter(Filter(s, p), q) == Filter(s, pq)
  {
    if |s| > 0 {
      FilterFilter(s[1..], p, q, pq);
      if p(s[0]) {
        assert Filter(s, p) == [s[0]] + Filter(s[1..], p);
        assert Filter(s, p)[1..] == Filter(s[1..], p);
      } else {
        assert Filter(s, p) == Filter(s[1..], p);
      }
    }
  }

  /** The conjunction of two predicates. */
  function Both<T>(p: T -> bool, q: T -> bool): T -> bool {
    (x: T) => p(x) && q(x)
  }

  /** Filters by predicates that agree everywhere agree. */
  lemma {:induction false} FilterExt<T(!new)>(s: seq<T>, p: T -> bool, q: T -> bool)
    requires forall x :: p(x) == q(x)
    ensures Filter(s, p) == Filter(s, q)
  {
    if |s| > 0 {
      FilterExt(s[1..], p, q);
    }
  }

  /** `if (on) items = items.filter(p)`, where `p` accepts everything when
      the filter is off. */
  method Narrow<T(!new)>(items: seq<T>, on: bool, p: T -> bool) returns (r: seq<T>)
    requires !on ==> forall x :: p(x)
    ensures r == Filter(items, p)
  {
    r := items;
    if on {
      r := Filter(items, p);
    } else {
      FilterAll(items, p);
    }
  }

  /** A filter whose predicate holds everywhere keeps the sequence. */
  lemma {:induction false} FilterAll<T(!new)>(s: seq<T>, p: T -> bool)
    requires forall x :: x in s ==> p(x)
    ensures Filter(s, p) == s
  {
    if |s| > 0 {
      FilterAll(s[1..], p);
      assert s == [s[0]] + s[1..];
    }
  }

  /** The filter that drops one value. */
  function Other(x: string): string -> bool {
    (y: string) => y != x
  }

  /** `includes(x) ? filter(y => y !== x) : [...s, x]`. */
  function Toggle(s: seq<string>, x: string): (r: seq<string>)
    ensures x in s ==> x !in r && |r| < |s|
    ensures x !in s ==> r == s + [x]
    ensures forall y :: y != x ==> (y in r <==> y in s)
  {
    if x in s then
      assert s[IndexOf(s, x)] == x;
      CountFilterSmaller(s, x);
      Filter(s, Other(x))
    else s + [x]
  }

  function IndexOf(s: seq<string>, x: string): (i: nat)
    requires x in s
    ensures i < |s| && s[i] == x
  {
    if s[0] == x then 0 else 1 + IndexOf(s[1..], x)
  }

  lemma {:induction false} CountFilterSmaller(s: seq<string>, x: string)
    requires x in s
    ensures |Filter(s, Other(x))| < |s|
  {
    if s[0] != x {
      CountFilterSmaller(s[1..], x);
    }
  }

  lemma {:induction false} FilterDropsLast(s: seq<string>, x: string)
    ensures Filter(s + [x], Other(x)) == Filter(s, Other(x))
  {
    if |s| == 0 {
      assert [x][1..] == [];
    } else {
      assert (s + [x])[1..] == s[1..] + [x];
      FilterDropsLast(s[1..], x);
    }
  }

  /** Toggling the same value twice restores membership, and restores the
      list itself when the value was absent. */
  lemma ToggleTwice(s: seq<string>, x: string)
    ensures forall y :: y in Toggle(Toggle(s, x), x) <==> y in s
    ensures x !in s ==> Toggle(Toggle(s, x), x) == s
  {
    if x !in s {
      FilterDropsLast(s, x);
      FilterAll(s, Other(x));
    }
  }

  /** Toggling keeps a list free of duplicates. */
  lemma ToggleNoDuplicates(s: seq<string>, x: string)
    requires NoDuplicates(s)
    ensures NoDuplicates(Toggle(s, x))
  {
    if x in s {
      FilterNoDuplicates(s, Other(x));
    }
  }

  lemma {:induction false} FilterNoDuplicates<T(!new)>(s: seq<T>, p: T -> bool)
    requires NoDuplicates(s)
    ensures NoDuplicates(Filter(s, p))
  {
    if |s| > 0 {
      FilterNoDuplicates(s[1..], p);
      assert s[0] !in s[1..];
    }
  }

  /** Array.prototype.slice(0, end): the end index a JavaScript number gives. */
  function SliceEnd(len: nat, end: int): (r: nat)
    ensures r <= len
    ensures 0 <= end <= len ==> r == end
    ensures end > len ==> r == len
    ensures end < 0 ==> r == if len + end > 0 then len + end else 0
  {
    if end >= 0 then (if end <= len then end else len)
    else if len + end > 0 then len + end else 0
  }

  function Count<T(==,!new)>(s: seq<T>, p: T -> bool): (n: nat)
    ensures n <= |s|
  {
    |Filter(s, p)|
  }

  predicate NoDuplicates<T(==)>(s: seq<T>) {
    forall i, j :: 0 <= i < j < |s| ==> s[i] != s[j]
  }

  /** `[...new Set(s)]`: the first occurrence of each value, in order. */
  function Dedupe<T(==,!new)>(s: seq<T>): (r: seq<T>)
    ensures NoDuplicates(r)
    ensures forall x :: x in r <==> x in s
    ensures |r| <= |s|
    ensures |s| > 0 ==> |r| > 0 && r[0] == s[0]
  {
    if |s| == 0 then [] else DedupeFrom(s[1..], [s[0]])
  }

  /** Adds to `seen` (already without duplicates) each element of `s` not yet present. */
  function DedupeFrom<T(==,!new)>(s: seq<T>, seen: seq<T>): (r: seq<T>)
    requires NoDuplicates(seen)
    ensures NoDuplicates(r)
    ensures |r| >= |seen| && r[..|seen|] == seen
    ensures forall x :: x in r <==> x in s || x in seen
    ensures |r| <= |seen| + |s|
    decreases |s|
  {
    if |s| == 0 then seen
    else if s[0] in seen then DedupeFrom(s[1..], seen)
    else DedupeFrom(s[1..], seen + [s[0]])
  }

  /** Deduplicating a concatenation first deduplicates its first part. */
  lemma {:induction false} DedupeFromAppend<T(!new)>(a: seq<T>, b: seq<T>, seen: seq<T>)
    requires NoDuplicates(seen)
    ensures var m := DedupeFrom(a, seen);
            DedupeFrom(a + b, seen) == DedupeFrom(b, m)
    decreases |a|
  {
    if |a| > 0 {
      assert (a + b)[1..] == a[1..] + b;
      if a[0] in seen {
        DedupeFromAppend(a[1..], b, seen);
      } else {
        DedupeFromAppend(a[1..], b, seen + [a[0]]);
      }
    } else {
      assert a + b == b;
    }
  }

  /** Sequences holding the same multiset hold the same elements. */
  lemma SameElements<T>(a: seq<T>, b: seq<T>)
    requires multiset(a) == multiset(b)
    ensures forall x :: x in a <==> x in b
  {
    forall x ensures x in a <==> x in b {
      assert x in a <==> x in multiset(a);
      assert x in b <==> x in multiset(b);
    }
  }

  // ---------------------------------------------------------------------
  // The stable descending sort of `items.sort((a, b) => key(b) - key(a))`

  /** A sort key; `secondary` breaks ties of `primary`. */
  datatype Rank = Rank(primary: real, secondary: real)

  predicate RankGe(a: Rank, b: Rank) {
    a.primary > b.primary || (a.primary == b.primary && a.secondary >= b.secondary)
  }

  ghost predicate SortedDesc<T>(s: seq<T>, rank: T -> Rank) {
    forall i, j :: 0 <= i < j < |s| ==> RankGe(rank(s[i]), rank(s[j]))
  }

  /** Puts `x` after every element ranked at least as high (so ties keep
      their original order). */
  function Insert<T>(x: T, s: seq<T>, rank: T -> Rank): (r: seq<T>)
    requires SortedDesc(s, rank)
    ensures SortedDesc(r, rank)
    ensures multiset(r) == multiset(s) + multiset{x}
    ensures |r| == |s| + 1
  {
    if |s| == 0 then [x]
    else if RankGe(rank(s[0]), rank(x)) then
      var t := Insert(x, s[1..], rank);
      assert s == [s[0]] + s[1..];
      HeadBoundsInsert(x, s, t, rank);
      SortedCons(s[0], t, rank);
      [s[0]] + t
    else
      SortedCons(x, s, rank);
      [x] + s
  }

  /** The head of a sorted sequence is ranked at least as high as `x` and
      the rest, so at least as high as anything the rest holds with `x`. */
  lemma HeadBoundsInsert<T>(x: T, s: seq<T>, t: seq<T>, rank: T -> Rank)
    requires SortedDesc(s, rank) && |s| > 0 && RankGe(rank(s[0]), rank(x))
    requires multiset(t) == multiset(s[1..]) + multiset{x}
    ensures forall y :: y in multiset(t) ==> RankGe(rank(s[0]), rank(y))
  {
    forall y | y in multiset(t) ensures RankGe(rank(s[0]), rank(y)) {
      if y != x {
        assert y in multiset(s[1..]);
        var k :| 0 <= k < |s[1..]| && s[1..][k] == y;
        assert s[k + 1] == y;
      }
    }
  }

  /** A head ranked at least as high as every element of a sorted tail
      gives a sorted sequence. */
  lemma SortedCons<T>(h: T, t: seq<T>, rank: T -> Rank)
    requires SortedDesc(t, rank)
    requires forall y :: y in multiset(t) ==> RankGe(rank(h), rank(y))
    ensures SortedDesc([h] + t, rank)
  {
    var r := [h] + t;
    forall i, j | 0 <= i < j < |r| ensures RankGe(rank(r[i]), rank(r[j])) {
      if i == 0 {
        assert r[j] == t[j - 1] && t[j - 1] in multiset(t);
      } else {
        assert r[i] == t[i - 1] && r[j] == t[j - 1];
      }
    }
  }

  /** Array.prototype.sort (stable) with a descending comparator. */
  function SortDesc<T>(s: seq<T>, rank: T -> Rank): (r: seq<T>)
    ensures SortedDesc(r, rank)
    ensures multiset(r) == multiset(s)
    ensures |r| == |s|
  {
    if |s| == 0 then []
    else
      assert s == s[..|s| - 1] + [s[|s| - 1]];
      Insert(s[|s| - 1], SortDesc(s[..|s| - 1], rank), rank)
  }

  /** The elements of `s` ranked exactly `q`, in their order in `s`. */
  function WithRank<T>(s: seq<T>, rank: T -> Rank, q: Rank): (r: seq<T>)
    ensures |r| <= |s|
  {
    if |s| == 0 then []
    else (if rank(s[0]) == q then [s[0]] else []) + WithRank(s[1..], rank, q)
  }

  lemma WithRankCons<T>(h: T, t: seq<T>, rank: T -> Rank, q: Rank)
    ensures WithRank([h] + t, rank, q) == (if rank(h) == q then [h] else []) + WithRank(t, rank, q)
  {
    assert ([h] + t)[0] == h && ([h] + t)[1..] == t;
  }

  lemma {:induction false} WithRankAppend<T>(a: seq<T>, b: seq<T>, rank: T -> Rank, q: Rank)
    ensures WithRank(a + b, rank, q) == WithRank(a, rank, q) + WithRank(b, rank, q)
  {
    if |a| == 0 {
      assert a + b == b;
    } else {
      assert (a + b)[1..] == a[1..] + b;
      WithRankAppend(a[1..], b, rank, q);
    }
  }

  lemma {:induction false} WithRankNone<T>(s: seq<T>, rank: T -> Rank, q: Rank)
    requires forall i :: 0 <= i < |s| ==> rank(s[i]) != q
    ensures WithRank(s, rank, q) == []
  {
    if |s| > 0 {
      WithRankNone(s[1..], rank, q);
    }
  }

  /** Nothing of a sorted sequence shares the rank of an element ranked
      above its head. */
  lemma BelowHead<T>(x: T, s: seq<T>, rank: T -> Rank)
    requires SortedDesc(s, rank) && |s| > 0 && !RankGe(rank(s[0]), rank(x))
    ensures forall i :: 0 <= i < |s| ==> rank(s[i]) != rank(x)
  {
    forall i | 0 <= i < |s| ensures rank(s[i]) != rank(x) {
      assert i == 0 || RankGe(rank(s[0]), rank(s[i]));
    }
  }

  /** `x` ranked no higher than the head goes into the tail. */
  lemma InsertBehind<T>(x: T, s: seq<T>, rank: T -> Rank)
    requires SortedDesc(s, rank) && |s| > 0 && RankGe(rank(s[0]), rank(x))
    ensures Insert(x, s, rank) == [s[0]] + Insert(x, s[1..], rank)
  {
    assert SortedDesc(s[1..], rank);
  }

  /** Putting the head back in front of a tail that kept the order of each
      rank, with `x` added, keeps that order. */
  lemma WithRankBehindHead<T>(x: T, s: seq<T>, r: seq<T>, t: seq<T>, rank: T -> Rank, q: Rank)
    requires |s| > 0 && r == [s[0]] + t
    requires WithRank(t, rank, q) == WithRank(s[1..], rank, q) + (if rank(x) == q then [x] else [])
    ensures WithRank(r, rank, q) == WithRank(s, rank, q) + (if rank(x) == q then [x] else [])
  {
    WithRankCons(s[0], t, rank, q);
    WithRankCons(s[0], s[1..], rank, q);
    assert [s[0]] + s[1..] == s;
    var h, w, m := (if rank(s[0]) == q then [s[0]] else []), WithRank(s[1..], rank, q), (if rank(x) == q then [x] else []);
    assert h + (w + m) == (h + w) + m;
  }

  /** Inserting `x` puts it after every element of its own rank. */
  lemma {:induction false} InsertStable<T>(x: T, s: seq<T>, rank: T -> Rank, q: Rank)
    requires SortedDesc(s, rank)
    ensures WithRank(Insert(x, s, rank), rank, q)
         == WithRank(s, rank, q) + (if rank(x) == q then [x] else [])
  {
    if |s| == 0 {
      WithRankCons(x, [], rank, q);
    } else if RankGe(rank(s[0]), rank(x)) {
      InsertStable(x, s[1..], rank, q);
      InsertBehind(x, s, rank);
      WithRankBehindHead(x, s, Insert(x, s, rank), Insert(x, s[1..], rank), rank, q);
    } else {
      WithRankCons(x, s, rank, q);
      if rank(x) == q {
        BelowHead(x, s, rank);
        WithRankNone(s, rank, q);
      }
    }
  }

  /** The sort is stable: the elements of each rank keep their order. */
  lemma {:induction false} SortDescStable<T>(s: seq<T>, rank: T -> Rank, q: Rank)
    ensures WithRank(SortDesc(s, rank), rank, q) == WithRank(s, rank, q)
  {
    if |s| > 0 {
      var init, last := s[..|s| - 1], s[|s| - 1];
      var sorted := SortDesc(init, rank);
      assert SortDesc(s, rank) == Insert(last, sorted, rank);
      SortDescStable(init, rank, q);
      InsertStable(last, sorted, rank, q);
      WithRankAppend(init, [last], rank, q);
      assert [last][1..] == [];
      assert WithRank([last], rank, q) == if rank(last) == q then [last] else [];
      assert init + [last] == s;
    }
  }

  // ---------------------------------------------------------------------
  // The default order of Array.prototype.sort on strings

  /** Code-unit lexicographic order. */
  predicate LexLess(a: string, b: string) {
    |b| > 0 && (|a| == 0 || a[0] < b[0] || (a[0] == b[0] && LexLess(a[1..], b[1..])))
  }

  lemma {:induction false} LexLessIrreflexive(a: string)
    ensures !LexLess(a, a)
  {
    if |a| > 0 {
      LexLessIrreflexive(a[1..]);
    }
  }

  lemma {:induction false} LexLessTransitive(a: string, b: string, c: string)
    requires LexLess(a, b) && LexLess(b, c)
    ensures LexLess(a, c)
  {
    if |a| > 0 && a[0] == b[0] && b[0] == c[0] {
      LexLessTransitive(a[1..], b[1..], c[1..]);
    }
  }

  lemma {:induction false} LexLessTotal(a: string, b: string)
    requires a != b
    ensures LexLess(a, b) || LexLess(b, a)
  {
    if |a| > 0 && |b| > 0 && a[0] == b[0] {
      assert a == [a[0]] + a[1..] && b == [b[0]] + b[1..];
      LexLessTotal(a[1..], b[1..]);
    }
  }

  ghost predicate StrictlyAscending(s: seq<string>) {
    forall i, j :: 0 <= i < j < |s| ==> LexLess(s[i], s[j])
  }

  /** Inserts `x` at its place in a strictly ascending sequence, unless present. */
  function InsertAscending(x: string, s: seq<string>): (r: seq<string>)
    requires StrictlyAscending(s)
    ensures StrictlyAscending(r)
    ensures forall y :: y in r <==> y in s || y == x
  {
    if |s| == 0 then [x]
    else if x == s[0] then s
    else if LexLess(s[0], x) then
      var t := InsertAscending(x, s[1..]);
      forall j | 0 <= j < |t| ensures LexLess(s[0], t[j]) {
        if t[j] != x {
          assert t[j] in s[1..];
        }
      }
      [s[0]] + t
    else
      LexLessTotal(x, s[0]);
      forall j | 0 < j < |s| ensures LexLess(x, s[j]) {
        LexLessTransitive(x, s[0], s[j]);
      }
      [x] + s
  }

  lemma {:induction false} LexLessAsymmetric(a: string, b: string)
    ensures LexLess(a, b) ==> !LexLess(b, a)
  {
    if |a| > 0 && |b| > 0 && a[0] == b[0] {
      LexLessAsymmetric(a[1..], b[1..]);
    }
  }

  /** The head of a strictly ascending sequence is below every other element. */
  lemma HeadIsLeast(s: seq<string>)
    requires StrictlyAscending(s) && |s| > 0
    ensures forall x :: x in s && x != s[0] ==> LexLess(s[0], x)
  {
    forall x | x in s && x != s[0] ensures LexLess(s[0], x) {
      var k :| 0 <= k < |s| && s[k] == x;
    }
  }

  /** A strictly ascending sequence is determined by its elements. */
  lemma {:induction false} AscendingUnique(a: seq<string>, b: seq<string>)
    requires StrictlyAscending(a) && StrictlyAscending(b)
    requires forall x :: x in a <==> x in b
    ensures a == b
  {
    assert |a| == 0 <==> |b| == 0 by {
      if |a| > 0 { assert a[0] in a; }
      if |b| > 0 { assert b[0] in b; }
    }
    if |a| > 0 {
      HeadIsLeast(a);
      HeadIsLeast(b);
      assert a[0] == b[0] by {
        assert a[0] in b && b[0] in a;
        LexLessAsymmetric(a[0], b[0]);
      }
      assert a == [a[0]] + a[1..] && b == [b[0]] + b[1..];
      forall x ensures x in a[1..] <==> x in b[1..] {
        LexLessIrreflexive(x);
        if x in a[1..] {
          var k :| 1 <= k < |a| && a[k] == x;
          assert LexLess(a[0], x) && x in b && x != b[0];
          var m :| 0 <= m < |b| && b[m] == x;
          assert b[1..][m - 1] == x;
        }
        if x in b[1..] {
          var k :| 1 <= k < |b| && b[k] == x;
          assert LexLess(b[0], x) && x in a && x != a[0];
          var m :| 0 <= m < |a| && a[m] == x;
          assert a[1..][m - 1] == x;
        }
      }
      AscendingUnique(a[1..], b[1..]);
    }
  }

  /** `Array.from(set).sort()`: the elements of a set of strings in
      ascending code-unit order. */
  method SortStrings(s: set<string>) returns (r: seq<string>)
    ensures StrictlyAscending(r)
    ensures forall x :: x in r <==> x in s
  {
    r := [];
    var rest := s;
    while rest != {}
      invariant StrictlyAscending(r)
      invariant forall x :: x in s <==> x in r || x in rest
      decreases rest
    {
      var x :| x in rest;
      r := InsertAscending(x, r);
      rest := rest - {x};
    }
  }

  /** `[...s].sort(byRank).slice(0, limit)`: the best-ranked elements. */
  function TopRanked<T>(s: seq<T>, rank: T -> Rank, limit: int): (r: seq<T>)
    ensures |r| == SliceEnd(|s|, limit)
    ensures multiset(r) <= multiset(s)
    ensures forall x :: x in r ==> x in s
    ensures SortedDesc(r, rank)
    ensures forall x, y :: x in s && x !in r && y in r ==> RankGe(rank(y), rank(x))
  {
    var sorted := SortDesc(s, rank);
    var r := sorted[..SliceEnd(|sorted|, limit)];
    assert sorted == r + sorted[|r|..];
    assert multiset(sorted) == multiset(r) + multiset(sorted[|r|..]);
    assert forall i :: 0 <= i < |r| ==> r[i] == sorted[i];
    PrefixDominates(sorted, |r|, rank);
    SameElements(sorted, s);
    assert forall x :: x in r ==> x in s by {
      forall x | x in r ensures x in s {
        var i :| 0 <= i < |r| && r[i] == x;
        assert sorted[i] == x && x in sorted;
        assert x in multiset(sorted);
        assert x in multiset(s);
      }
    }
    r
  }

  /** The sort is stable, so among the elements of one rank the result
      keeps the first ones, in their order in `s`. */
  lemma TopRankedStable<T>(s: seq<T>, rank: T -> Rank, limit: int, q: Rank)
    ensures WithRank(TopRanked(s, rank, limit), rank, q) <= WithRank(s, rank, q)
  {
    var sorted := SortDesc(s, rank);
    var r := TopRanked(s, rank, limit);
    assert sorted == r + sorted[|r|..];
    WithRankAppend(r, sorted[|r|..], rank, q);
    SortDescStable(s, rank, q);
  }

  /** A prefix of a descending sequence ranks at least as high as every
      element left out of it. */
  lemma PrefixDominates<T>(sorted: seq<T>, k: nat, rank: T -> Rank)
    requires SortedDesc(sorted, rank) && k <= |sorted|
    ensures forall x, y :: x in sorted && x !in sorted[..k] && y in sorted[..k] ==> RankGe(rank(y), rank(x))
  {
    forall x, y | x in sorted && x !in sorted[..k] && y in sorted[..k]
      ensures RankGe(rank(y), rank(x))
    {
      var i :| 0 <= i < k && sorted[..k][i] == y;
      var j :| 0 <= j < |sorted| && sorted[j] == x;
      assert j >= k by {
        assert forall m :: 0 <= m < k ==> sorted[..k][m] == sorted[m];
      }
    }
  }
}
