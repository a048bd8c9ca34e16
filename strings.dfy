/** The JavaScript string operations the core relies on, restricted to what
    the model needs: whitespace, ASCII case, substring search, splitting on
    one character, joining, rendering integers, and literal replacement. */
module Strings {
  import opened Wrappers

  // ---------------------------------------------------------------------
  // Character classes

  /** Whitespace as `trim` and `\s` see it: the ECMAScript white space
      characters (tab, vertical tab, form feed, space, no-break space, the
      byte order mark and the space separators of Unicode 15) and the four
      line terminators. */
  predicate IsSpace(c: char) {
    ('\t' <= c <= '\r') || c == ' ' || c == '\U{A0}' || c == '\U{1680}' ||
    ('\U{2000}' <= c <= '\U{200A}') || c == '\U{2028}' || c == '\U{2029}' ||
    c == '\U{202F}' || c == '\U{205F}' || c == '\U{3000}' || c == '\U{FEFF}'
  }

  /** The characters `.` does not match in a regular expression without the `s` flag. */
  predicate IsLineTerminator(c: char) {
    c == '\n' || c == '\r' || c == '\U{2028}' || c == '\U{2029}'
  }

  predicate IsLowerAlpha(c: char) { 'a' <= c <= 'z' }
  predicate IsUpperAlpha(c: char) { 'A' <= c <= 'Z' }
  predicate IsDigit(c: char) { '0' <= c <= '9' }

  /** `\w` in a regular expression: ASCII letters, digits and underscore. */
  predicate IsWordChar(c: char) {
    IsLowerAlpha(c) || IsUpperAlpha(c) || IsDigit(c) || c == '_'
  }

  /** Every character of `s` satisfies `p`. */
  predicate All(s: string, p: char -> bool) {
    forall i :: 0 <= i < |s| ==> p(s[i])
  }

  /** Neither end of `s` satisfies `p`. */
  predicate NoEdge(s: string, p: char -> bool) {
    s == [] || (!p(s[0]) && !p(s[|s| - 1]))
  }

  predicate AllSpace(s: string) { All(s, IsSpace) }

  /** No whitespace at either end: what `trim` leaves. */
  predicate IsTrimmed(s: string) { NoEdge(s, IsSpace) }

  // ---------------------------------------------------------------------
  // Substrings

  predicate OccursAt(s: string, p: string, i: int) {
    0 <= i && i + |p| <= |s| && s[i..i + |p|] == p
  }

  /** `s.includes(p)`. */
  predicate Contains(s: string, p: string) {
    exists i | 0 <= i <= |s| - |p| :: OccursAt(s, p, i)
  }

  /** `s.startsWith(p)`. */
  predicate StartsWith(s: string, p: string) {
    |p| <= |s| && s[..|p|] == p
  }

  /** `s.endsWith(p)`. */
  predicate EndsWith(s: string, p: string) {
    |p| <= |s| && s[|s| - |p|..] == p
  }

  /** The first occurrence of `p` in `s` at or after `from` (`s.indexOf(p, from)`). */
  function FindFrom(s: string, p: string, from: nat): (r: Option<nat>)
    ensures r.Some? ==> from <= r.value && OccursAt(s, p, r.value)
    ensures r.Some? ==> forall k :: from <= k < r.value ==> !OccursAt(s, p, k)
    ensures r.None? ==> forall k :: from <= k ==> !OccursAt(s, p, k)
    decreases |s| - from
  {
    if from + |p| > |s| then None
    else if s[from..from + |p|] == p then Some(from)
    else FindFrom(s, p, from + 1)
  }

  lemma {:induction false} OccursAtShift(a: string, s: string, b: string, p: string, i: int)
    requires OccursAt(s, p, i)
    ensures OccursAt(a + s + b, p, i + |a|)
  {
    assert (a + s + b)[i + |a|..i + |a| + |p|] == s[i..i + |p|];
  }

  /** A substring of a substring is a substring. */
  lemma {:induction false} ContainsInfix(a: string, s: string, b: string, p: string)
    requires Contains(s, p)
    ensures Contains(a + s + b, p)
  {
    var i :| 0 <= i <= |s| - |p| && OccursAt(s, p, i);
    OccursAtShift(a, s, b, p, i);
  }

  // ---------------------------------------------------------------------
  // Trimming
  //
  // Trimming is stated for any character class `p` and then used with
  // whitespace: the structural facts do not depend on which characters `p`
  // holds for.

  /** The suffix of `s` after its leading run of `p` characters. */
  function DropStart(s: string, p: char -> bool): (r: string)
    ensures |r| <= |s| && r == s[|s| - |r|..]
    ensures r != [] ==> !p(r[0])
  {
    if s != [] && p(s[0]) then DropStart(s[1..], p) else s
  }

  /** The prefix of `s` before its trailing run of `p` characters. */
  function DropEnd(s: string, p: char -> bool): (r: string)
    ensures |r| <= |s| && r == s[..|r|]
    ensures r != [] ==> !p(r[|r| - 1])
  {
    if s != [] && p(s[|s| - 1]) then DropEnd(s[..|s| - 1], p) else s
  }

  /** Both runs removed, one character at a time from whichever end has one. */
  function Strip(s: string, p: char -> bool): (r: string)
    ensures NoEdge(r, p)
    ensures |r| <= |s|
    decreases |s|
  {
    if s != [] && p(s[0]) then Strip(s[1..], p)
    else if s != [] && p(s[|s| - 1]) then Strip(s[..|s| - 1], p)
    else s
  }

  /** Stripping is dropping the leading run and then the trailing one. */
  lemma {:induction false} StripByEnds(s: string, p: char -> bool)
    ensures Strip(s, p) == DropEnd(DropStart(s, p), p)
    decreases |s|
  {
    if s != [] && p(s[0]) {
      StripByEnds(s[1..], p);
    } else if s != [] && p(s[|s| - 1]) {
      var init := s[..|s| - 1];
      StripByEnds(init, p);
      assert init[0] == s[0];
    }
  }

  /** A prefix of a suffix of `s` occurs in `s` where the suffix starts. */
  lemma PrefixOfSuffixOccurs(s: string, t: string, r: string)
    requires |t| <= |s| && t == s[|s| - |t|..]
    requires |r| <= |t| && r == t[..|r|]
    ensures OccursAt(s, r, |s| - |t|)
  {
    assert s[|s| - |t|..|s| - |t| + |r|] == s[|s| - |t|..][..|r|];
  }

  /** What `DropStart` removes satisfies `p`. */
  lemma {:induction false} DropStartRemoves(s: string, p: char -> bool)
    ensures All(s[..|s| - |DropStart(s, p)|], p)
    decreases |s|
  {
    if s != [] && p(s[0]) {
      var r := DropStart(s[1..], p);
      DropStartRemoves(s[1..], p);
      assert s[..|s| - |r|] == [s[0]] + s[1..][..|s| - 1 - |r|];
    }
  }

  /** What `DropEnd` removes satisfies `p`. */
  lemma {:induction false} DropEndRemoves(s: string, p: char -> bool)
    ensures All(s[|DropEnd(s, p)|..], p)
    decreases |s|
  {
    if s != [] && p(s[|s| - 1]) {
      var init := s[..|s| - 1];
      var r := DropEnd(init, p);
      DropEndRemoves(init, p);
      assert s[|r|..] == init[|r|..] + [s[|s| - 1]];
    }
  }

  lemma DropsSlice(s: string, p: char -> bool)
    ensures var t := DropStart(s, p);
            var r := DropEnd(t, p);
            var i := |s| - |t|;
            OccursAt(s, r, i) && All(s[..i], p) && All(s[i + |r|..], p)
  {
    var t := DropStart(s, p);
    var r := DropEnd(t, p);
    var i := |s| - |t|;
    PrefixOfSuffixOccurs(s, t, r);
    DropStartRemoves(s, p);
    DropEndRemoves(t, p);
    assert s[i + |r|..] == t[|r|..];
  }

  /** The stripped string is the slice of `s` between its leading and its
      trailing run of `p` characters. */
  lemma StripIsSlice(s: string, p: char -> bool)
    ensures var i := |s| - |DropStart(s, p)|;
            OccursAt(s, Strip(s, p), i) && All(s[..i], p) && All(s[i + |Strip(s, p)|..], p)
  {
    StripByEnds(s, p);
    DropsSlice(s, p);
  }

  lemma {:induction false} DropStartAll(s: string, p: char -> bool)
    requires All(s, p)
    ensures DropStart(s, p) == []
    decreases |s|
  {
    if s != [] {
      DropStartAll(s[1..], p);
    }
  }

  lemma {:induction false} DropStartNotAll(s: string, p: char -> bool)
    requires !All(s, p)
    ensures DropStart(s, p) != []
    decreases |s|
  {
    var k :| 0 <= k < |s| && !p(s[k]);
    if p(s[0]) {
      assert s[1..][k - 1] == s[k];
      DropStartNotAll(s[1..], p);
    }
  }

  lemma {:induction false} DropEndKeepsHead(t: string, p: char -> bool)
    requires t != [] && !p(t[0])
    ensures DropEnd(t, p) != []
    decreases |t|
  {
    if |t| > 1 && p(t[|t| - 1]) {
      DropEndKeepsHead(t[..|t| - 1], p);
    }
  }

  /** Stripping leaves nothing exactly when every character satisfies `p`. */
  lemma StripEmptyIffAll(s: string, p: char -> bool)
    ensures Strip(s, p) == [] <==> All(s, p)
  {
    StripByEnds(s, p);
    if All(s, p) {
      DropStartAll(s, p);
    } else {
      DropStartNotAll(s, p);
      DropEndKeepsHead(DropStart(s, p), p);
    }
  }

  lemma {:induction false} DropStartPrefix(a: string, t: string, p: char -> bool)
    requires All(a, p)
    ensures DropStart(a + t, p) == DropStart(t, p)
    decreases |a|
  {
    if a != [] {
      assert (a + t)[1..] == a[1..] + t;
      DropStartPrefix(a[1..], t, p);
    } else {
      assert a + t == t;
    }
  }

  lemma {:induction false} DropEndSuffix(t: string, b: string, p: char -> bool)
    requires All(b, p)
    ensures DropEnd(t + b, p) == DropEnd(t, p)
    decreases |b|
  {
    if b != [] {
      assert (t + b)[..|t + b| - 1] == t + b[..|b| - 1];
      DropEndSuffix(t, b[..|b| - 1], p);
    } else {
      assert t + b == t;
    }
  }

  lemma {:induction false} DropStartAppend(s: string, b: string, p: char -> bool)
    requires !All(s, p)
    ensures DropStart(s + b, p) == DropStart(s, p) + b
    decreases |s|
  {
    if p(s[0]) {
      assert (s + b)[1..] == s[1..] + b;
      assert !All(s[1..], p) by {
        var k :| 0 <= k < |s| && !p(s[k]);
        assert k > 0 && s[1..][k - 1] == s[k];
      }
      DropStartAppend(s[1..], b, p);
    }
  }

  lemma DropPadded(a: string, s: string, b: string, p: char -> bool)
    requires All(a, p) && All(b, p)
    ensures DropEnd(DropStart(a + s + b, p), p) == DropEnd(DropStart(s, p), p)
  {
    assert a + s + b == a + (s + b);
    DropStartPrefix(a, s + b, p);
    if All(s, p) {
      assert All(s + b, p);
      DropStartAll(s + b, p);
      DropStartAll(s, p);
    } else {
      DropStartAppend(s, b, p);
      DropEndSuffix(DropStart(s, p), b, p);
    }
  }

  /** Runs of `p` characters around a string do not change its stripped form. */
  lemma StripPadded(a: string, s: string, b: string, p: char -> bool)
    requires All(a, p) && All(b, p)
    ensures Strip(a + s + b, p) == Strip(s, p)
  {
    StripByEnds(a + s + b, p);
    StripByEnds(s, p);
    DropPadded(a, s, b, p);
  }

  /** A string with no `p` character at either end is its own stripped form. */
  lemma StripOfNoEdge(s: string, p: char -> bool)
    requires NoEdge(s, p)
    ensures Strip(s, p) == s
  {
    if s != [] {
      assert !p(s[0]) && !p(s[|s| - 1]);
    }
  }

  /** `s.trim()`: neither end of the result is whitespace. */
  function Trim(s: string): (r: string)
    ensures IsTrimmed(r)
    ensures |r| <= |s|
  {
    Strip(s, IsSpace)
  }

  lemma TrimEmptyIffAllSpace(s: string)
    ensures Trim(s) == [] <==> AllSpace(s)
  {
    StripEmptyIffAll(s, IsSpace);
  }

  /** Whitespace around a string does not change its trimmed form. */
  lemma TrimPadded(a: string, s: string, b: string)
    requires AllSpace(a) && AllSpace(b)
    ensures Trim(a + s + b) == Trim(s)
  {
    StripPadded(a, s, b, IsSpace);
  }

  /** A trimmed string is its own trimmed form. */
  lemma TrimOfTrimmed(s: string)
    requires IsTrimmed(s)
    ensures Trim(s) == s
  {
    StripOfNoEdge(s, IsSpace);
  }

  // ---------------------------------------------------------------------
  // Case

  function LowerChar(c: char): char {
    if IsUpperAlpha(c) then (c as int + 32) as char else c
  }

  /** `s.toLowerCase()`, restricted to ASCII letters. */
  function ToLower(s: string): (r: string)
    ensures |r| == |s|
  {
    seq(|s|, i requires 0 <= i < |s| => LowerChar(s[i]))
  }

  lemma ToLowerIdempotent(s: string)
    ensures ToLower(ToLower(s)) == ToLower(s)
  {
  }

  lemma ToLowerConcat(a: string, s: string, b: string)
    ensures ToLower(a + s + b) == ToLower(a) + ToLower(s) + ToLower(b)
  {
  }

  /** Text without upper-case letters is its own lower-case form. */
  lemma ToLowerNoUpper(s: string)
    requires forall i :: 0 <= i < |s| ==> !IsUpperAlpha(s[i])
    ensures ToLower(s) == s
  {
  }

  // ---------------------------------------------------------------------
  // Splitting and joining

  function IndexOf(s: string, c: char): (i: nat)
    requires c in s
    ensures i < |s| && s[i] == c && c !in s[..i]
  {
    if s[0] == c then 0 else 1 + IndexOf(s[1..], c)
  }

  /** `s.split(c)` for a one-character separator: the maximal runs without `c`. */
  function Split(s: string, c: char): (parts: seq<string>)
    ensures |parts| >= 1
    ensures forall k :: 0 <= k < |parts| ==> c !in parts[k]
    decreases |s|
  {
    if c in s then
      var i := IndexOf(s, c);
      [s[..i]] + Split(s[i + 1..], c)
    else
      [s]
  }

  /** `parts.join(sep)`. */
  function Join(parts: seq<string>, sep: string): string
    decreases |parts|
  {
    if parts == [] then ""
    else if |parts| == 1 then parts[0]
    else parts[0] + sep + Join(parts[1..], sep)
  }

  lemma {:induction false} IndexOfAfter(a: string, c: char, b: string)
    requires c !in a
    ensures c in a + [c] + b && IndexOf(a + [c] + b, c) == |a|
    decreases |a|
  {
    var s := a + [c] + b;
    assert s[|a|] == c;
    if a != [] {
      assert s[1..] == a[1..] + [c] + b;
      IndexOfAfter(a[1..], c, b);
    }
  }

  /** Joining with the separator undoes splitting. */
  lemma {:induction false} JoinSplit(s: string, c: char)
    ensures Join(Split(s, c), [c]) == s
    decreases |s|
  {
    if c in s {
      var i := IndexOf(s, c);
      JoinSplit(s[i + 1..], c);
      var rest := Split(s[i + 1..], c);
      assert Split(s, c) == [s[..i]] + rest;
      assert ([s[..i]] + rest)[1..] == rest;
      assert s == s[..i] + [c] + s[i + 1..];
    }
  }

  lemma JoinCons(parts: seq<string>, sep: string)
    requires |parts| > 1
    ensures Join(parts, sep) == parts[0] + sep + Join(parts[1..], sep)
  {
  }

  /** Every part can be found in the joined string. */
  lemma {:induction false} JoinContainsParts(parts: seq<string>, sep: string, k: int)
    requires 0 <= k < |parts|
    ensures Contains(Join(parts, sep), parts[k])
    decreases |parts|
  {
    var s := Join(parts, sep);
    if |parts| == 1 {
      assert s[0..|parts[0]|] == parts[0];
      assert OccursAt(s, parts[k], 0);
    } else if k == 0 {
      assert s == parts[0] + sep + Join(parts[1..], sep);
      assert s[0..|parts[0]|] == parts[0];
      assert OccursAt(s, parts[k], 0);
    } else {
      assert parts[1..][k - 1] == parts[k];
      JoinContainsParts(parts[1..], sep, k - 1);
      ContainsInfix(parts[0] + sep, Join(parts[1..], sep), "", parts[k]);
      assert parts[0] + sep + Join(parts[1..], sep) + "" == s;
    }
  }

  /** Joining two non-empty lists puts one separator between their joins. */
  lemma {:induction false} JoinAppend(xs: seq<string>, ys: seq<string>, sep: string)
    requires xs != [] && ys != []
    ensures Join(xs + ys, sep) == Join(xs, sep) + sep + Join(ys, sep)
    decreases |xs|
  {
    assert (xs + ys)[0] == xs[0];
    assert (xs + ys)[1..] == xs[1..] + ys;
    if |xs| > 1 {
      JoinAppend(xs[1..], ys, sep);
    } else {
      assert xs[1..] + ys == ys;
    }
  }

  /** A character in no part and not in the separator is not in the join. */
  lemma {:induction false} JoinExcludes(parts: seq<string>, sep: string, c: char)
    requires forall k :: 0 <= k < |parts| ==> c !in parts[k]
    requires c !in sep
    ensures c !in Join(parts, sep)
    decreases |parts|
  {
    if |parts| > 1 {
      JoinExcludes(parts[1..], sep, c);
    }
  }

  /** The join starts where its first part starts. */
  lemma JoinFirst(parts: seq<string>, sep: string)
    requires parts != [] && parts[0] != []
    ensures Join(parts, sep) != [] && Join(parts, sep)[0] == parts[0][0]
  {
  }

  /** The join ends where its last part ends. */
  lemma {:induction false} JoinLast(parts: seq<string>, sep: string)
    requires parts != [] && parts[|parts| - 1] != []
    ensures Join(parts, sep) != [] && Join(parts, sep)[|Join(parts, sep)| - 1] == parts[|parts| - 1][|parts[|parts| - 1]| - 1]
    decreases |parts|
  {
    if |parts| > 1 {
      JoinLast(parts[1..], sep);
      assert parts[1..][|parts| - 2] == parts[|parts| - 1];
    }
  }

  /** Each part behind a space. */
  function Spaced(xs: seq<string>): (r: seq<string>)
    ensures |r| == |xs| && forall k :: 0 <= k < |xs| ==> r[k] == " " + xs[k]
  {
    seq(|xs|, k requires 0 <= k < |xs| => " " + xs[k])
  }

  /** Splitting a `", "` join on the comma leaves the space in front of every
      part but the first. */
  lemma {:induction false} SplitCommaSpaceJoin(a: string, parts: seq<string>)
    requires |parts| >= 1 && ',' !in a
    requires forall k :: 0 <= k < |parts| ==> ',' !in parts[k]
    ensures Split(a + Join(parts, ", "), ',') == [a + parts[0]] + Spaced(parts[1..])
    decreases |parts|
  {
    if |parts| == 1 {
      assert a + Join(parts, ", ") == a + parts[0];
      assert Spaced(parts[1..]) == [];
    } else {
      var rest := Join(parts[1..], ", ");
      var s := a + Join(parts, ", ");
      assert s == (a + parts[0]) + [','] + (" " + rest);
      IndexOfAfter(a + parts[0], ',', " " + rest);
      assert s[..|a + parts[0]|] == a + parts[0];
      assert s[|a + parts[0]| + 1..] == " " + rest;
      SplitCommaSpaceJoin(" ", parts[1..]);
      assert [" " + parts[1..][0]] + Spaced(parts[1..][1..]) == Spaced(parts[1..]);
    }
  }

  /** Splitting a `", "` join on the comma: every part but the first keeps
      the space in front of it. */
  lemma SplitSpacedJoin(parts: seq<string>)
    requires |parts| >= 1
    requires forall k :: 0 <= k < |parts| ==> ',' !in parts[k]
    ensures Split(Join(parts, ", "), ',') == [parts[0]] + Spaced(parts[1..])
  {
    var j := Join(parts, ", ");
    var e: string := [];
    assert e + j == j;
    SplitCommaSpaceJoin(e, parts);
    assert e + parts[0] == parts[0];
  }

  /** Splitting undoes joining when no part holds the separator. */
  lemma {:induction false} SplitJoin(parts: seq<string>, c: char)
    requires |parts| >= 1
    requires forall k :: 0 <= k < |parts| ==> c !in parts[k]
    ensures Split(Join(parts, [c]), c) == parts
    decreases |parts|
  {
    if |parts| > 1 {
      var head, tail := parts[0], parts[1..];
      var rest := Join(tail, [c]);
      var s := head + [c] + rest;
      JoinCons(parts, [c]);
      assert Join(parts, [c]) == s;
      IndexOfAfter(head, c, rest);
      assert s[..|head|] == head;
      assert s[|head| + 1..] == rest;
      assert Split(s, c) == [head] + Split(rest, c);
      SplitJoin(tail, c);
      assert parts == [head] + tail;
    } else {
      assert Join(parts, [c]) == parts[0];
    }
  }

  /** `xs.map(x => x.trim())`. */
  function TrimEach(xs: seq<string>): (r: seq<string>)
    ensures |r| == |xs|
  {
    seq(|xs|, k requires 0 <= k < |xs| => Trim(xs[k]))
  }

  /** Texts that are already trimmed come back unchanged. */
  lemma TrimEachOfTrimmed(xs: seq<string>)
    requires forall k :: 0 <= k < |xs| ==> Trim(xs[k]) == xs[k]
    ensures TrimEach(xs) == xs
  {
  }

  // ---------------------------------------------------------------------
  // Numbers

  function DigitChar(d: nat): (c: char)
    requires d < 10
    ensures IsDigit(c)
  {
    ('0' as int + d) as char
  }

  function DigitValue(c: char): (d: nat)
    requires IsDigit(c)
    ensures d < 10
  {
    c as int - '0' as int
  }

  /** `String(n)` for a non-negative integer: its decimal digits, no leading zero. */
  function NatToString(n: nat): (r: string)
    ensures r != []
    ensures forall i :: 0 <= i < |r| ==> IsDigit(r[i])
    ensures r[0] == '0' ==> n == 0
    decreases n
  {
    if n < 10 then [DigitChar(n)] else NatToString(n / 10) + [DigitChar(n % 10)]
  }

  /** `String(n)` for an integer small enough to print without an exponent. */
  function IntToString(n: int): string {
    if n < 0 then "-" + NatToString(-n) else NatToString(n)
  }

  /** Reads decimal digits back; the inverse of `NatToString`. */
  function ParseDigits(s: string): nat
    requires forall i :: 0 <= i < |s| ==> IsDigit(s[i])
    decreases |s|
  {
    if s == [] then 0 else ParseDigits(s[..|s| - 1]) * 10 + DigitValue(s[|s| - 1])
  }

  lemma {:induction false} ParseNatToString(n: nat)
    ensures ParseDigits(NatToString(n)) == n
    decreases n
  {
    if n >= 10 {
      var r := NatToString(n);
      assert r[..|r| - 1] == NatToString(n / 10);
      ParseNatToString(n / 10);
    }
  }

  /** Rendering integers loses nothing: distinct integers print differently. */
  lemma IntToStringInjective(m: int, n: int)
    requires IntToString(m) == IntToString(n)
    ensures m == n
  {
    assert IntToString(m)[0] == '-' <==> m < 0;
    assert IntToString(n)[0] == '-' <==> n < 0;
    if m < 0 {
      assert NatToString(-m) == IntToString(m)[1..];
      assert NatToString(-n) == IntToString(n)[1..];
      ParseNatToString(-m);
      ParseNatToString(-n);
    } else {
      ParseNatToString(m);
      ParseNatToString(n);
    }
  }

  // ---------------------------------------------------------------------
  // Literal replacement

  /** Every non-overlapping occurrence of `pat`, scanning left to right,
      replaced by `rep` taken literally. */
  function ReplaceAll(s: string, pat: string, rep: string): string
    requires pat != []
    decreases |s|
  {
    if |s| < |pat| then s
    else if s[..|pat|] == pat then rep + ReplaceAll(s[|pat|..], pat, rep)
    else [s[0]] + ReplaceAll(s[1..], pat, rep)
  }

  /** Replacing a pattern that does not occur changes nothing. */
  lemma {:induction false} ReplaceAllAbsent(s: string, pat: string, rep: string)
    requires pat != [] && !Contains(s, pat)
    ensures ReplaceAll(s, pat, rep) == s
    decreases |s|
  {
    if |s| >= |pat| {
      assert !OccursAt(s, pat, 0);
      forall i | 0 <= i <= |s[1..]| - |pat|
        ensures !OccursAt(s[1..], pat, i)
      {
        assert !OccursAt(s, pat, i + 1);
        assert s[1..][i..i + |pat|] == s[i + 1..i + 1 + |pat|];
      }
      ReplaceAllAbsent(s[1..], pat, rep);
    }
  }

  /** Text before a match that holds no part of it is copied unchanged. */
  lemma {:induction false} ReplaceAllPrefix(a: string, s: string, pat: string, rep: string)
    requires pat != []
    requires forall i :: 0 <= i < |a| ==> !OccursAt(a + s, pat, i)
    ensures ReplaceAll(a + s, pat, rep) == a + ReplaceAll(s, pat, rep)
    decreases |a|
  {
    if a != [] {
      var t := a + s;
      assert !OccursAt(t, pat, 0);
      assert t[1..] == a[1..] + s;
      forall i | 0 <= i < |a[1..]|
        ensures !OccursAt(a[1..] + s, pat, i)
      {
        assert !OccursAt(t, pat, i + 1);
        if i + |pat| <= |t| - 1 {
          assert t[1..][i..i + |pat|] == t[i + 1..i + 1 + |pat|];
        }
      }
      ReplaceAllPrefix(a[1..], s, pat, rep);
      var rest := ReplaceAll(s, pat, rep);
      if |t| < |pat| {
        assert ReplaceAll(a[1..] + s, pat, rep) == a[1..] + s;
        assert rest == s;
      } else {
        assert t[..|pat|] != pat;
        assert ReplaceAll(t, pat, rep) == [a[0]] + ReplaceAll(a[1..] + s, pat, rep);
        assert [a[0]] + (a[1..] + rest) == a + rest;
      }
    } else {
      assert a + s == s;
    }
  }

  /** A match at the front is replaced and the scan resumes after it. */
  lemma ReplaceAllAtFront(s: string, pat: string, rep: string)
    requires pat != [] && StartsWith(s, pat)
    ensures ReplaceAll(s, pat, rep) == rep + ReplaceAll(s[|pat|..], pat, rep)
  {
  }
}
