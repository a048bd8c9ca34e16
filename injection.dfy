/** The six injection patterns, each stated as "the pattern matches starting
    at position p" of a text that has already been lower-cased; matching a
    case-insensitive regular expression on the original text is matching it
    on the lower-cased text. `\s` is ECMAScript white space and line
    terminators, `\w` is ASCII letters, digits and underscore, and `.` is any character but a line terminator. */
module Injection {
  import opened Strings

  /** Every character of `t[lo..hi]` satisfies `P`. */
  predicate AllIn(t: string, lo: int, hi: int, P: char -> bool) {
    0 <= lo <= hi <= |t| && forall k :: lo <= k < hi ==> P(t[k])
  }

  predicate NotLineBreak(c: char) { !IsLineTerminator(c) }
  predicate NotGreater(c: char) { c != '>' }
  predicate IsQuote(c: char) { c == '"' || c == '\'' }
  predicate NotQuote(c: char) { !IsQuote(c) }

  // `<script[^>]*>.*?<\/script>`: the opening tag runs to its first `>`, and
  // the closing tag follows on the same line.

  predicate ScriptTagEnd(t: string, p: int, q: int) {
    0 <= q < |t| && t[q] == '>' && AllIn(t, p + 7, q, NotGreater)
  }

  predicate ScriptClose(t: string, q: int) {
    exists e | q + 1 <= e <= |t| - 9 :: AllIn(t, q + 1, e, NotLineBreak) && OccursAt(t, "</script>", e)
  }

  predicate ScriptAt(t: string, p: int) {
    OccursAt(t, "<script", p) &&
    exists q | p + 7 <= q < |t| :: ScriptTagEnd(t, p, q) && ScriptClose(t, q)
  }

  /** `javascript:` */
  predicate ProtocolAt(t: string, p: int) {
    OccursAt(t, "javascript:", p)
  }

  // `on\w+\s*=\s*["'][^"']*["']`

  predicate QuotedTail(t: string, q: int) {
    exists c | q + 1 <= c < |t| :: AllIn(t, q + 1, c, NotQuote) && IsQuote(t[c])
  }

  predicate HandlerValue(t: string, e: int) {
    exists q | e + 1 <= q < |t| :: AllIn(t, e + 1, q, IsSpace) && IsQuote(t[q]) && QuotedTail(t, q)
  }

  predicate HandlerAssign(t: string, w: int) {
    exists e | w <= e < |t| :: AllIn(t, w, e, IsSpace) && t[e] == '=' && HandlerValue(t, e)
  }

  predicate HandlerName(t: string, p: int, w: int) {
    AllIn(t, p + 2, w, IsWordChar)
  }

  predicate HandlerAt(t: string, p: int) {
    OccursAt(t, "on", p) &&
    exists w | p + 3 <= w <= |t| :: HandlerName(t, p, w) && HandlerAssign(t, w)
  }

  /** `name\s*\(`, the shape of the `eval` and `expression` patterns. */
  predicate CallAt(t: string, p: int, name: string) {
    OccursAt(t, name, p) &&
    exists e | p + |name| <= e < |t| :: AllIn(t, p + |name|, e, IsSpace) && t[e] == '('
  }

  // `import\s+.*from`

  predicate FromAfter(t: string, k: int) {
    exists m | k <= m <= |t| - 4 :: AllIn(t, k, m, NotLineBreak) && OccursAt(t, "from", m)
  }

  predicate ImportSpaces(t: string, p: int, k: int) {
    AllIn(t, p + 6, k, IsSpace)
  }

  predicate ImportAt(t: string, p: int) {
    OccursAt(t, "import", p) &&
    exists k | p + 7 <= k <= |t| :: ImportSpaces(t, p, k) && FromAfter(t, k)
  }

  predicate PatternAt(t: string, p: int) {
    ScriptAt(t, p) || ProtocolAt(t, p) || HandlerAt(t, p) ||
    CallAt(t, p, "eval") || CallAt(t, p, "expression") || ImportAt(t, p)
  }

  /** `detectInjectionPatterns`: some pattern matches somewhere, ignoring case. */
  predicate DetectInjectionPatterns(content: string) {
    exists p | 0 <= p < |content| :: PatternAt(ToLower(content), p)
  }

  // ---------------------------------------------------------------------
  // Case and context do not hide a match

  /** Detection ignores case. */
  lemma DetectIgnoresCase(s: string)
    ensures DetectInjectionPatterns(ToLower(s)) == DetectInjectionPatterns(s)
  {
    ToLowerIdempotent(s);
  }

  /** Surrounding text cannot hide a match: detection is closed under
      embedding the text anywhere. */
  lemma {:induction false} DetectInContext(a: string, s: string, b: string)
    requires DetectInjectionPatterns(s)
    ensures DetectInjectionPatterns(a + s + b)
  {
    var p :| 0 <= p < |s| && PatternAt(ToLower(s), p);
    ToLowerConcat(a, s, b);
    PatternShift(ToLower(a), ToLower(s), ToLower(b), p);
  }

  lemma {:induction false} PatternShift(a: string, t: string, b: string, p: int)
    requires PatternAt(t, p)
    ensures PatternAt(a + t + b, p + |a|)
  {
    if ScriptAt(t, p) {
      ScriptShift(a, t, b, p);
    } else if ProtocolAt(t, p) {
      OccursAtShift(a, t, b, "javascript:", p);
    } else if HandlerAt(t, p) {
      HandlerShift(a, t, b, p);
    } else if CallAt(t, p, "eval") {
      CallShift(a, t, b, p, "eval");
    } else if CallAt(t, p, "expression") {
      CallShift(a, t, b, p, "expression");
    } else {
      ImportShift(a, t, b, p);
    }
  }

  /** A run of characters keeps its property inside a longer text. */
  lemma {:induction false} AllInShift(a: string, t: string, b: string, lo: int, hi: int, P: char -> bool)
    requires AllIn(t, lo, hi, P)
    ensures AllIn(a + t + b, lo + |a|, hi + |a|, P)
  {
    var u := a + t + b;
    forall k | lo + |a| <= k < hi + |a|
      ensures P(u[k])
    {
      assert u[k] == t[k - |a|];
    }
  }

  lemma {:induction false} CharShift(a: string, t: string, b: string, k: int)
    requires 0 <= k < |t|
    ensures (a + t + b)[k + |a|] == t[k]
  {
  }

  lemma {:induction false} ScriptShift(a: string, t: string, b: string, p: int)
    requires ScriptAt(t, p)
    ensures ScriptAt(a + t + b, p + |a|)
  {
    var u := a + t + b;
    var d := |a|;
    OccursAtShift(a, t, b, "<script", p);
    var q :| p + 7 <= q < |t| && ScriptTagEnd(t, p, q) && ScriptClose(t, q);
    AllInShift(a, t, b, p + 7, q, NotGreater);
    CharShift(a, t, b, q);
    assert ScriptTagEnd(u, p + d, q + d);
    var e :| q + 1 <= e <= |t| - 9 && AllIn(t, q + 1, e, NotLineBreak) && OccursAt(t, "</script>", e);
    AllInShift(a, t, b, q + 1, e, NotLineBreak);
    OccursAtShift(a, t, b, "</script>", e);
    assert ScriptClose(u, q + d);
  }

  lemma {:induction false} QuotedTailShift(a: string, t: string, b: string, q: int)
    requires QuotedTail(t, q)
    ensures QuotedTail(a + t + b, q + |a|)
  {
    var c :| q + 1 <= c < |t| && AllIn(t, q + 1, c, NotQuote) && IsQuote(t[c]);
    AllInShift(a, t, b, q + 1, c, NotQuote);
    CharShift(a, t, b, c);
  }

  lemma {:induction false} HandlerValueShift(a: string, t: string, b: string, e: int)
    requires HandlerValue(t, e)
    ensures HandlerValue(a + t + b, e + |a|)
  {
    var q :| e + 1 <= q < |t| && AllIn(t, e + 1, q, IsSpace) && IsQuote(t[q]) && QuotedTail(t, q);
    AllInShift(a, t, b, e + 1, q, IsSpace);
    CharShift(a, t, b, q);
    QuotedTailShift(a, t, b, q);
  }

  lemma {:induction false} HandlerAssignShift(a: string, t: string, b: string, w: int)
    requires HandlerAssign(t, w)
    ensures HandlerAssign(a + t + b, w + |a|)
  {
    var e :| w <= e < |t| && AllIn(t, w, e, IsSpace) && t[e] == '=' && HandlerValue(t, e);
    AllInShift(a, t, b, w, e, IsSpace);
    CharShift(a, t, b, e);
    HandlerValueShift(a, t, b, e);
  }

  lemma {:induction false} HandlerShift(a: string, t: string, b: string, p: int)
    requires HandlerAt(t, p)
    ensures HandlerAt(a + t + b, p + |a|)
  {
    OccursAtShift(a, t, b, "on", p);
    var w :| p + 3 <= w <= |t| && HandlerName(t, p, w) && HandlerAssign(t, w);
    AllInShift(a, t, b, p + 2, w, IsWordChar);
    assert HandlerName(a + t + b, p + |a|, w + |a|);
    HandlerAssignShift(a, t, b, w);
  }

  lemma {:induction false} CallShift(a: string, t: string, b: string, p: int, name: string)
    requires CallAt(t, p, name)
    ensures CallAt(a + t + b, p + |a|, name)
  {
    OccursAtShift(a, t, b, name, p);
    var e :| p + |name| <= e < |t| && AllIn(t, p + |name|, e, IsSpace) && t[e] == '(';
    AllInShift(a, t, b, p + |name|, e, IsSpace);
    CharShift(a, t, b, e);
  }

  lemma {:induction false} ImportShift(a: string, t: string, b: string, p: int)
    requires ImportAt(t, p)
    ensures ImportAt(a + t + b, p + |a|)
  {
    OccursAtShift(a, t, b, "import", p);
    var k :| p + 7 <= k <= |t| && ImportSpaces(t, p, k) && FromAfter(t, k);
    AllInShift(a, t, b, p + 6, k, IsSpace);
    assert ImportSpaces(a + t + b, p + |a|, k + |a|);
    var m :| k <= m <= |t| - 4 && AllIn(t, k, m, NotLineBreak) && OccursAt(t, "from", m);
    AllInShift(a, t, b, k, m, NotLineBreak);
    OccursAtShift(a, t, b, "from", m);
    assert FromAfter(a + t + b, k + |a|);
  }

  // ---------------------------------------------------------------------
  // Texts without the characters a pattern needs

  /** A pattern cannot occur where one of its characters never appears. */
  lemma AbsentCharNoOccurrence(t: string, pat: string, j: int, p: int)
    requires 0 <= j < |pat| && pat[j] !in t
    ensures !OccursAt(t, pat, p)
  {
    if 0 <= p && p + |pat| <= |t| {
      assert t[p..p + |pat|][j] == t[p + j];
    }
  }

  /** A text with no `<`, `:`, `=` or `(`, and no letter `f` in either case,
      matches none of the six patterns. */
  lemma {:induction false} PlainTextNotDetected(s: string)
    requires PlainText(s)
    ensures !DetectInjectionPatterns(s)
  {
    var t := ToLower(s);
    forall k | 0 <= k < |t|
      ensures t[k] != '<' && t[k] != ':' && t[k] != '=' && t[k] != '(' && t[k] != 'f'
    {
      assert t[k] == LowerChar(s[k]);
      assert PlainChar(s[k]);
    }
    forall m | 0 <= m <= |t| - 4
      ensures !OccursAt(t, "from", m)
    {
      AbsentCharNoOccurrence(t, "from", 0, m);
    }
    forall p | 0 <= p < |t|
      ensures !PatternAt(t, p)
    {
      AbsentCharNoOccurrence(t, "<script", 0, p);
      AbsentCharNoOccurrence(t, "javascript:", 10, p);
    }
  }

  // ---------------------------------------------------------------------
  // Examples

  /** A lower-case text that opens with `<script>` and closes the element
      later on the same line matches the script pattern. */
  lemma {:induction false} ScriptElementDetected(t: string, e: int)
    requires ToLower(t) == t
    requires OccursAt(t, "<script>", 0)
    requires 8 <= e && AllIn(t, 8, e, NotLineBreak) && OccursAt(t, "</script>", e)
    ensures DetectInjectionPatterns(t)
  {
    assert t[..7] == t[..8][..7];
    assert t[7] == t[..8][7];
    assert ScriptTagEnd(t, 0, 7);
    assert ScriptClose(t, 7);
    assert PatternAt(ToLower(t), 0);
  }

  lemma ScriptExampleLower(s: string)
    requires s == "<script>alert(\"xss\")</script>"
    ensures ToLower(s) == s
  {
    ToLowerNoUpper(s);
  }

  lemma ScriptExampleFacts(s: string)
    requires s == "<script>alert(\"xss\")</script>"
    ensures OccursAt(s, "<script>", 0) && AllIn(s, 8, 20, NotLineBreak) && OccursAt(s, "</script>", 20)
  {
  }

  /** The script example of the sanitiser's tests is detected. */
  lemma ScriptExampleDetected()
    ensures DetectInjectionPatterns("<script>alert(\"xss\")</script>")
  {
    ScriptExampleLower("<script>alert(\"xss\")</script>");
    ScriptExampleFacts("<script>alert(\"xss\")</script>");
    ScriptElementDetected("<script>alert(\"xss\")</script>", 20);
  }

  lemma ProtocolExampleFacts(s: string)
    requires s == "javascript:alert(1)"
    ensures ToLower(s) == s && OccursAt(s, "javascript:", 0)
  {
    ToLowerNoUpper(s);
  }

  lemma EvalExampleFacts(s: string)
    requires s == "eval(userInput)"
    ensures OccursAt(ToLower(s), "eval", 0) && 4 < |ToLower(s)| && ToLower(s)[4] == '('
  {
    var t := ToLower(s);
    assert t[..4] == "eval";
  }

  /** A match at a position of the lower-cased text is a detection. */
  lemma DetectedAt(s: string, p: int)
    requires 0 <= p < |s| && PatternAt(ToLower(s), p)
    ensures DetectInjectionPatterns(s)
  {
  }

  /** The protocol example of the sanitiser's tests is detected. */
  lemma ProtocolExampleDetected()
    ensures DetectInjectionPatterns("javascript:alert(1)")
  {
    ProtocolExampleFacts("javascript:alert(1)");
    DetectedAt("javascript:alert(1)", 0);
  }

  /** The eval example of the sanitiser's tests is detected. */
  lemma EvalExampleDetected()
    ensures DetectInjectionPatterns("eval(userInput)")
  {
    var t := ToLower("eval(userInput)");
    EvalExampleFacts("eval(userInput)");
    assert AllIn(t, 4, 4, IsSpace);
    assert CallAt(t, 0, "eval");
    DetectedAt("eval(userInput)", 0);
  }

  /** An attribute `on<name>='<value>'` is an inline event handler. */
  lemma {:induction false} HandlerDetected(name: string, value: string)
    requires name != [] && forall k :: 0 <= k < |name| ==> IsWordChar(name[k])
    requires forall k :: 0 <= k < |value| ==> NotQuote(value[k])
    ensures HandlerAt("on" + name + "='" + value + "'", 0)
  {
    var t := "on" + name + "='" + value + "'";
    var w := 2 + |name|;
    assert t[w] == '=' && t[w + 1] == '\'' && t[|t| - 1] == '\'';
    assert AllIn(t, w + 2, |t| - 1, NotQuote) by {
      forall k | w + 2 <= k < |t| - 1 ensures NotQuote(t[k]) {
        assert t[k] == value[k - w - 2];
      }
    }
    assert QuotedTail(t, w + 1);
    assert AllIn(t, w + 1, w + 1, IsSpace);
    assert HandlerValue(t, w);
    assert AllIn(t, w, w, IsSpace);
    assert HandlerAssign(t, w);
    assert HandlerName(t, 0, w) by {
      forall k | 2 <= k < w ensures IsWordChar(t[k]) {
        assert t[k] == name[k - 2];
      }
    }
    assert t[..2] == "on";
  }

  lemma HandlerExampleLower()
    ensures ToLower("onerror='alert(1)'") == "onerror='alert(1)'"
  {
    ToLowerNoUpper("onerror='alert(1)'");
  }

  lemma HandlerNameWord(name: string)
    requires name == "error"
    ensures name != [] && forall k :: 0 <= k < |name| ==> IsWordChar(name[k])
  {
  }

  lemma HandlerValueUnquoted(value: string)
    requires value == "alert(1)"
    ensures forall k :: 0 <= k < |value| ==> NotQuote(value[k])
  {
  }

  lemma HandlerExampleParts(t: string)
    requires t == "onerror='alert(1)'"
    ensures t == "on" + "error" + "='" + "alert(1)" + "'"
  {
  }

  lemma HandlerExampleAt(t: string)
    requires t == "onerror='alert(1)'"
    ensures HandlerAt(t, 0)
  {
    HandlerNameWord("error");
    HandlerValueUnquoted("alert(1)");
    HandlerDetected("error", "alert(1)");
    HandlerExampleParts(t);
  }

  /** An inline event handler attribute is detected. */
  lemma HandlerExampleDetected()
    ensures DetectInjectionPatterns("<img src=x " + "onerror='alert(1)'" + ">")
  {
    var t := "onerror='alert(1)'";
    HandlerExampleAt(t);
    HandlerExampleLower();
    assert PatternAt(ToLower(t), 0);
    DetectInContext("<img src=x ", t, ">");
  }

  /** None of the characters `<`, `:`, `=`, `(`, `f` and `F`. */
  predicate PlainChar(c: char) {
    c != '<' && c != ':' && c != '=' && c != '(' && c != 'f' && c != 'F'
  }

  predicate PlainText(s: string) {
    forall k :: 0 <= k < |s| ==> PlainChar(s[k])
  }

  lemma PlainConcat(a: string, b: string)
    requires PlainText(a) && PlainText(b)
    ensures PlainText(a + b)
  {
    forall k | 0 <= k < |a + b| ensures PlainChar((a + b)[k]) {
      if k < |a| { assert (a + b)[k] == a[k]; } else { assert (a + b)[k] == b[k - |a|]; }
    }
  }

  /** The plain prose of the sanitiser's tests is not detected. */
  lemma PlainProseNotDetected()
    ensures !DetectInjectionPatterns("This is a " + "normal agent " + "description " + "without any injection.")
  {
    var a, b, c, d := "This is a ", "normal agent ", "description ", "without any injection.";
    assert PlainText(a);
    assert PlainText(b);
    assert PlainText(c);
    assert PlainText(d);
    PlainConcat(a, b);
    PlainConcat(a + b, c);
    PlainConcat(a + b + c, d);
    PlainTextNotDetected(a + b + c + d);
  }

  /** The only tag end of the multi-line element is its first `>`, and no
      closing tag follows it on its line. */
  lemma MultiLineTagFacts(s: string)
    requires s == "<script>\nalert(1)\n</script>"
    ensures forall q :: 7 <= q < |s| && ScriptTagEnd(s, 0, q) ==> q == 7
    ensures !ScriptClose(s, 7)
  {
    assert s[7] == '>' && s[8] == '\n';
  }

  /** `<` occurs only at the two tags, and the second is a closing tag. */
  lemma MultiLineOpenings(s: string)
    requires s == "<script>\nalert(1)\n</script>"
    ensures forall p :: 0 < p < |s| ==> !OccursAt(s, "<script", p)
  {
    assert forall p :: 0 <= p < |s| && s[p] == '<' ==> p == 0 || p == 18;
    assert s[19] == '/';
    forall p | 0 < p < |s|
      ensures !OccursAt(s, "<script", p)
    {
      if p == 18 {
        assert s[18..25][1] == s[19];
      } else if p + 7 <= |s| {
        assert s[p..p + 7][0] == s[p];
      }
    }
  }

  lemma MultiLineLower(s: string)
    requires s == "<script>\nalert(1)\n</script>"
    ensures ToLower(s) == s
  {
    ToLowerNoUpper(s);
  }

  /** None of the characters `:`, `o`, `v`, `x` and `m`. */
  predicate Unmarked(c: char) {
    c != ':' && c != 'o' && c != 'v' && c != 'x' && c != 'm'
  }

  /** Characters the other five patterns need and the element lacks. */
  lemma MultiLineLacks(s: string)
    requires s == "<script>\nalert(1)\n</script>"
    ensures ':' !in s && 'o' !in s && 'v' !in s && 'x' !in s && 'm' !in s
  {
    assert forall k :: 0 <= k < |s| ==> Unmarked(s[k]);
  }

  /** A lower-case text with a single `<script` opening, at its start, whose
      tag end has no closing tag on its line, and without `:`, `o`, `v`, `x`
      and `m`, matches no pattern. */
  lemma {:induction false} UnclosedScriptNotDetected(t: string)
    requires ToLower(t) == t
    requires forall q :: 7 <= q < |t| && ScriptTagEnd(t, 0, q) ==> q == 7
    requires !ScriptClose(t, 7)
    requires forall p :: 0 < p < |t| ==> !OccursAt(t, "<script", p)
    requires ':' !in t && 'o' !in t && 'v' !in t && 'x' !in t && 'm' !in t
    ensures !DetectInjectionPatterns(t)
  {
    forall p | 0 <= p < |t|
      ensures !PatternAt(t, p)
    {
      AbsentCharNoOccurrence(t, "javascript:", 10, p);
      AbsentCharNoOccurrence(t, "on", 0, p);
      AbsentCharNoOccurrence(t, "eval", 1, p);
      AbsentCharNoOccurrence(t, "expression", 1, p);
      AbsentCharNoOccurrence(t, "import", 1, p);
    }
  }

  /** Without the `s` flag a script element spread over lines is not matched. */
  lemma MultiLineScriptNotDetected()
    ensures !DetectInjectionPatterns("<script>\nalert(1)\n</script>")
  {
    var s := "<script>\nalert(1)\n</script>";
    MultiLineLower(s);
    MultiLineTagFacts(s);
    MultiLineOpenings(s);
    MultiLineLacks(s);
    UnclosedScriptNotDetected(s);
  }

  lemma SingleLineLower(s: string)
    requires s == "<script>alert(1)</script>"
    ensures ToLower(s) == s
  {
    ToLowerNoUpper(s);
  }

  lemma SingleLineFacts(s: string)
    requires s == "<script>alert(1)</script>"
    ensures OccursAt(s, "<script>", 0) && AllIn(s, 8, 16, NotLineBreak) && OccursAt(s, "</script>", 16)
  {
  }

  /** The same element on one line is matched. */
  lemma SingleLineScriptDetected()
    ensures DetectInjectionPatterns("<script>alert(1)</script>")
  {
    SingleLineLower("<script>alert(1)</script>");
    SingleLineFacts("<script>alert(1)</script>");
    ScriptElementDetected("<script>alert(1)</script>", 16);
  }
}
