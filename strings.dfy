/**
 * String operations shared by the PHP pages, the browser scripts and the Python
 * utilities. Strings are `seq<char>`; case mapping is ASCII-only.
 */
module Strings {

  // ---------------------------------------------------------------------------
  // Case mapping (ASCII)
  // ---------------------------------------------------------------------------

  function LowerChar(c: char): (r: char)
    ensures 'A' <= c <= 'Z' ==> r as int == c as int + 32
    ensures !('A' <= c <= 'Z') ==> r == c
  {
    if 'A' <= c <= 'Z' then (c as int + 32) as char else c
  }

  function UpperChar(c: char): (r: char)
    ensures 'a' <= c <= 'z' ==> r as int == c as int - 32
    ensures !('a' <= c <= 'z') ==> r == c
  {
    if 'a' <= c <= 'z' then (c as int - 32) as char else c
  }

  /** `toLowerCase()` / `strtolower()` / `str.lower()` on ASCII text. */
  function ToLower(s: string): (r: string)
    ensures |r| == |s|
    ensures forall i :: 0 <= i < |s| ==> r[i] == LowerChar(s[i])
  {
    if s == [] then [] else [LowerChar(s[0])] + ToLower(s[1..])
  }

  /** `toUpperCase()` / `strtoupper()` / `str.upper()` on ASCII text. */
  function ToUpper(s: string): (r: string)
    ensures |r| == |s|
    ensures forall i :: 0 <= i < |s| ==> r[i] == UpperChar(s[i])
  {
    if s == [] then [] else [UpperChar(s[0])] + ToUpper(s[1..])
  }

  /** PHP `ucfirst`: the first character upper-cased, the rest unchanged. */
  function Ucfirst(s: string): (r: string)
    ensures |r| == |s|
    ensures s != [] ==> r[0] == UpperChar(s[0]) && r[1..] == s[1..]
  {
    if s == [] then [] else [UpperChar(s[0])] + s[1..]
  }

  // ---------------------------------------------------------------------------
  // Searching
  // ---------------------------------------------------------------------------

  predicate StartsWith(s: string, p: string) {
    |p| <= |s| && s[..|p|] == p
  }

  predicate EndsWith(s: string, p: string) {
    |p| <= |s| && s[|s| - |p|..] == p
  }

  /** `p` occurs in `s` at position `i`. */
  predicate OccursAt(s: string, p: string, i: int) {
    0 <= i && i + |p| <= |s| && s[i..i + |p|] == p
  }

  /** Substring test: JS `includes`, Python `in`, PHP `str_contains`. */
  predicate Contains(s: string, p: string)
    decreases |s|
  {
    StartsWith(s, p) || (s != [] && Contains(s[1..], p))
  }

  lemma {:induction false} OccursImpliesContains(s: string, p: string, i: int)
    requires OccursAt(s, p, i)
    ensures Contains(s, p)
    decreases i
  {
    if i == 0 {
      assert s[..|p|] == s[0..0 + |p|];
    } else {
      assert s[1..][i - 1..i - 1 + |p|] == s[i..i + |p|];
      OccursImpliesContains(s[1..], p, i - 1);
    }
  }

  lemma {:induction false} ContainsImpliesOccurs(s: string, p: string)
    requires Contains(s, p)
    ensures exists i :: OccursAt(s, p, i)
    decreases |s|
  {
    if StartsWith(s, p) {
      assert OccursAt(s, p, 0);
    } else {
      ContainsImpliesOccurs(s[1..], p);
      var j :| OccursAt(s[1..], p, j);
      assert s[1..][j..j + |p|] == s[j + 1..j + 1 + |p|];
      assert OccursAt(s, p, j + 1);
    }
  }

  /** The recursive substring test agrees with "occurs at some position". */
  lemma ContainsIff(s: string, p: string)
    ensures Contains(s, p) <==> exists i :: OccursAt(s, p, i)
  {
    if Contains(s, p) {
      ContainsImpliesOccurs(s, p);
    }
    if exists i :: OccursAt(s, p, i) {
      var i :| OccursAt(s, p, i);
      OccursImpliesContains(s, p, i);
    }
  }

  lemma ContainsAt(s: string, p: string, i: int)
    requires OccursAt(s, p, i)
    ensures Contains(s, p)
  {
    ContainsIff(s, p);
  }

  /** A text containing `p` contains every piece of `p`. */
  lemma ContainsInner(s: string, p: string, q: string, off: nat)
    requires Contains(s, p)
    requires off + |q| <= |p| && p[off..off + |q|] == q
    ensures Contains(s, q)
  {
    ContainsImpliesOccurs(s, p);
    var i :| OccursAt(s, p, i);
    forall k | 0 <= k < |q|
      ensures s[i + off + k] == q[k]
    {
      assert s[i..i + |p|][off + k] == p[off..off + |q|][k];
    }
    assert s[i + off..i + off + |q|] == q;
    ContainsAt(s, q, i + off);
  }

  lemma {:induction false} ContainsEmpty(s: string)
    ensures Contains(s, "")
  {
    assert StartsWith(s, "");
  }

  lemma OccursShift(s: string, p: string, j: int)
    requires s != [] && j >= 1
    ensures OccursAt(s, p, j) <==> OccursAt(s[1..], p, j - 1)
  {
    if j + |p| <= |s| {
      assert s[1..][j - 1..j - 1 + |p|] == s[j..j + |p|];
    }
  }

  /** The first position at which `p` occurs in `s`, if any (JS `indexOf`, Python `find`). */
  function IndexOf(s: string, p: string): (r: Option<nat>)
    ensures r.Some? ==> OccursAt(s, p, r.value)
    ensures r.Some? ==> forall j :: 0 <= j < r.value ==> !OccursAt(s, p, j)
    ensures r.None? <==> !Contains(s, p)
    decreases |s|
  {
    if StartsWith(s, p) then Some(0)
    else if s == [] then None
    else match IndexOf(s[1..], p)
      case None => None
      case Some(k) =>
        OccursShift(s, p, k + 1);
        assert forall j :: 1 <= j < k + 1 ==> !OccursAt(s, p, j) by {
          forall j | 1 <= j < k + 1 ensures !OccursAt(s, p, j) {
            OccursShift(s, p, j);
          }
        }
        Some(k + 1)
  }

  /** JS `s.replace(p, q)` with a string pattern: only the first occurrence is replaced. */
  function ReplaceFirst(s: string, p: string, q: string): (r: string)
    ensures !Contains(s, p) ==> r == s
    ensures Contains(s, p) ==>
      exists i :: (OccursAt(s, p, i) && (forall j :: 0 <= j < i ==> !OccursAt(s, p, j))
                   && r == s[..i] + q + s[i + |p|..])
  {
    match IndexOf(s, p)
    case None => s
    case Some(i) => s[..i] + q + s[i + |p|..]
  }

  /**
   * Python `str.replace(p, q)`: every occurrence, scanned left to right, without
   * overlap; the text put in is not scanned again.
   */
  function ReplaceAll(s: string, p: string, q: string): (r: string)
    requires p != []
    decreases |s|
  {
    if |s| < |p| then s
    else if StartsWith(s, p) then q + ReplaceAll(s[|p|..], p, q)
    else [s[0]] + ReplaceAll(s[1..], p, q)
  }

  /** A text that does not contain the pattern comes out of `ReplaceAll` unchanged. */
  lemma {:induction false} ReplaceAllAbsent(s: string, p: string, q: string)
    requires p != []
    requires !Contains(s, p)
    ensures ReplaceAll(s, p, q) == s
    decreases |s|
  {
    if |s| < |p| {
    } else {
      assert !StartsWith(s, p);
      ReplaceAllAbsent(s[1..], p, q);
      assert [s[0]] + s[1..] == s;
    }
  }

  /** Deleting a pattern never lengthens a text. */
  lemma {:induction false} ReplaceAllDeleteShrinks(s: string, p: string)
    requires p != []
    ensures |ReplaceAll(s, p, "")| <= |s|
    decreases |s|
  {
    if |s| < |p| {
    } else if StartsWith(s, p) {
      ReplaceAllDeleteShrinks(s[|p|..], p);
    } else {
      ReplaceAllDeleteShrinks(s[1..], p);
    }
  }

  // ---------------------------------------------------------------------------
  // Whitespace and trimming
  // ---------------------------------------------------------------------------

  /** ASCII characters in JavaScript's `\s` and `trim()` set (and Python's, but see PySpace). */
  predicate JsSpace(c: char) {
    c == ' ' || c == '\t' || c == '\n' || c == '\r' || c == '\U{000B}' || c == '\U{000C}'
    || c == '\U{00A0}' || c == '\U{FEFF}' || c == '\U{2028}' || c == '\U{2029}'
  }

  /** PHP `trim()` default character list: space, \t, \n, \r, \0 and \x0B. */
  predicate PhpSpace(c: char) {
    c == ' ' || c == '\t' || c == '\n' || c == '\r' || c == '\U{0000}' || c == '\U{000B}'
  }

  /** ASCII characters for which Python's `str.isspace()` holds (used by `strip()`). */
  predicate PySpace(c: char) {
    c == ' ' || c == '\t' || c == '\n' || c == '\r' || c == '\U{000B}' || c == '\U{000C}'
    || c == '\U{001C}' || c == '\U{001D}' || c == '\U{001E}' || c == '\U{001F}'
  }

  function TrimLeft(s: string, ws: char -> bool): (r: string)
    ensures |r| <= |s| && r == s[|s| - |r|..]
    ensures r != [] ==> !ws(r[0])
    ensures forall i :: 0 <= i < |s| - |r| ==> ws(s[i])
    decreases |s|
  {
    if s != [] && ws(s[0]) then TrimLeft(s[1..], ws) else s
  }

  function TrimRight(s: string, ws: char -> bool): (r: string)
    ensures |r| <= |s| && r == s[..|r|]
    ensures r != [] ==> !ws(r[|r| - 1])
    ensures forall i :: |r| <= i < |s| ==> ws(s[i])
    decreases |s|
  {
    if s != [] && ws(s[|s| - 1]) then TrimRight(s[..|s| - 1], ws) else s
  }

  /** Strips the characters `ws` accepts from both ends. */
  function Trim(s: string, ws: char -> bool): (r: string)
    ensures |r| <= |s|
    ensures r != [] ==> !ws(r[0]) && !ws(r[|r| - 1])
    ensures (forall i :: 0 <= i < |s| ==> ws(s[i])) <==> r == []
  {
    var l := TrimLeft(s, ws);
    TrimRight(l, ws)
  }

  function JsTrim(s: string): (r: string)
    ensures |r| <= |s|
    ensures r == [] <==> forall i :: 0 <= i < |s| ==> JsSpace(s[i])
  {
    Trim(s, JsSpace)
  }

  function PhpTrim(s: string): (r: string)
    ensures |r| <= |s|
    ensures r == [] <==> forall i :: 0 <= i < |s| ==> PhpSpace(s[i])
  {
    Trim(s, PhpSpace)
  }

  function PyStrip(s: string): (r: string)
    ensures |r| <= |s|
    ensures r == [] <==> forall i :: 0 <= i < |s| ==> PySpace(s[i])
  {
    Trim(s, PySpace)
  }

  /** Whitespace in front is stripped away entirely. */
  lemma {:induction false} TrimLeftPadding(pre: string, t: string, ws: char -> bool)
    requires forall i :: 0 <= i < |pre| ==> ws(pre[i])
    ensures TrimLeft(pre + t, ws) == TrimLeft(t, ws)
    decreases |pre|
  {
    if pre == [] {
      assert pre + t == t;
    } else {
      assert (pre + t)[1..] == pre[1..] + t;
      TrimLeftPadding(pre[1..], t, ws);
    }
  }

  /** Whitespace behind is stripped away entirely. */
  lemma {:induction false} TrimRightPadding(t: string, post: string, ws: char -> bool)
    requires forall i :: 0 <= i < |post| ==> ws(post[i])
    ensures TrimRight(t + post, ws) == TrimRight(t, ws)
    decreases |post|
  {
    if post == [] {
      assert t + post == t;
    } else {
      var s := t + post;
      assert s[..|s| - 1] == t + post[..|post| - 1];
      TrimRightPadding(t, post[..|post| - 1], ws);
    }
  }

  /** Trimming text padded with whitespace gives back the text, when the text itself has no whitespace at either end. */
  lemma TrimPadding(pre: string, core: string, post: string, ws: char -> bool)
    requires forall i :: 0 <= i < |pre| ==> ws(pre[i])
    requires forall i :: 0 <= i < |post| ==> ws(post[i])
    requires core != [] && !ws(core[0]) && !ws(core[|core| - 1])
    ensures Trim(pre + core + post, ws) == core
  {
    TrimLeftPadding(pre, core + post, ws);
    assert pre + core + post == pre + (core + post);
    assert TrimLeft(core + post, ws) == core + post;
    TrimRightPadding(core, post, ws);
  }

  /** JS `s.replace(/\s+/g, sep)`: each maximal run of whitespace becomes one `sep`. */
  function CollapseSpaces(s: string, sep: string): (r: string)
    requires forall c :: c in sep ==> !JsSpace(c)
    ensures forall c :: c in r ==> !JsSpace(c)
    decreases |s|
  {
    if s == [] then []
    else if JsSpace(s[0]) then sep + CollapseSpaces(TrimLeft(s, JsSpace), sep)
    else [s[0]] + CollapseSpaces(s[1..], sep)
  }

  lemma {:induction false} CollapseSpacesIdentity(s: string, sep: string)
    requires forall c :: c in sep ==> !JsSpace(c)
    requires forall c :: c in s ==> !JsSpace(c)
    ensures CollapseSpaces(s, sep) == s
    decreases |s|
  {
    if s != [] {
      assert s[0] in s;
      assert forall c :: c in s[1..] ==> c in s;
      CollapseSpacesIdentity(s[1..], sep);
      assert [s[0]] + s[1..] == s;
    }
  }

  /**
   * The same replacement read one character at a time: `inRun` says whether the
   * previous character was whitespace. A whitespace character writes `sep` only
   * when it starts a run; any other character is copied.
   */
  function CollapseScan(s: string, sep: string, inRun: bool): string
    decreases |s|
  {
    if s == [] then []
    else if JsSpace(s[0]) then (if inRun then [] else sep) + CollapseScan(s[1..], sep, true)
    else [s[0]] + CollapseScan(s[1..], sep, false)
  }

  /** Inside a run the scan writes nothing until the first character that is not whitespace. */
  lemma {:induction false} ScanSkipsRun(s: string, sep: string)
    ensures CollapseScan(s, sep, true) == CollapseScan(TrimLeft(s, JsSpace), sep, false)
    decreases |s|
  {
    if s != [] && JsSpace(s[0]) {
      ScanSkipsRun(s[1..], sep);
    }
  }

  /** Collapsing run by run and scanning character by character give the same text. */
  lemma {:induction false} CollapseSpacesIsScan(s: string, sep: string)
    requires forall c :: c in sep ==> !JsSpace(c)
    ensures CollapseSpaces(s, sep) == CollapseScan(s, sep, false)
    decreases |s|
  {
    if s == [] {
    } else if JsSpace(s[0]) {
      var t := TrimLeft(s, JsSpace);
      ScanSkipsRun(s[1..], sep);
      assert TrimLeft(s[1..], JsSpace) == t;
      CollapseSpacesIsScan(t, sep);
    } else {
      CollapseSpacesIsScan(s[1..], sep);
    }
  }

  /** The scan of `a + b` is the scan of `a`, then the scan of `b` starting in the state `a` left. */
  /** The scan of a text that starts with `c`: what `c` writes, then the scan of the rest. */
  lemma ScanCons(c: char, t: string, sep: string, inRun: bool)
    ensures CollapseScan([c] + t, sep, inRun)
         == (if JsSpace(c) then (if inRun then [] else sep) else [c]) + CollapseScan(t, sep, JsSpace(c))
  {
    assert ([c] + t)[0] == c && ([c] + t)[1..] == t;
  }

  lemma {:induction false} ScanAppend(a: string, b: string, sep: string, inRun: bool)
    ensures CollapseScan(a + b, sep, inRun)
         == CollapseScan(a, sep, inRun) + CollapseScan(b, sep, if a == [] then inRun else JsSpace(a[|a| - 1]))
    decreases |a|
  {
    if a == [] {
      assert a + b == b;
    } else {
      var c, t := a[0], a[1..];
      var head := if JsSpace(c) then (if inRun then [] else sep) else [c];
      var after := if t == [] then JsSpace(c) else JsSpace(t[|t| - 1]);
      assert a == [c] + t && a + b == [c] + (t + b);
      assert after == JsSpace(a[|a| - 1]);
      calc {
        CollapseScan(a + b, sep, inRun);
        == { ScanCons(c, t + b, sep, inRun); }
        head + CollapseScan(t + b, sep, JsSpace(c));
        == { ScanAppend(t, b, sep, JsSpace(c)); }
        head + (CollapseScan(t, sep, JsSpace(c)) + CollapseScan(b, sep, after));
        (head + CollapseScan(t, sep, JsSpace(c))) + CollapseScan(b, sep, after);
        == { ScanCons(c, t, sep, inRun); }
        CollapseScan(a, sep, inRun) + CollapseScan(b, sep, after);
      }
    }
  }

  /** A run made only of whitespace collapses to a single `sep`, however long it is. */
  lemma CollapseSpacesRun(s: string, sep: string)
    requires forall c :: c in sep ==> !JsSpace(c)
    requires s != [] && forall i :: 0 <= i < |s| ==> JsSpace(s[i])
    ensures CollapseSpaces(s, sep) == sep
  {
    assert CollapseSpaces(s, sep) == sep + CollapseSpaces(TrimLeft(s, JsSpace), sep);
  }

  /**
   * Cutting the text anywhere except inside a whitespace run cuts the result at
   * the same place: every run is collapsed on its own, and the other characters
   * stay where they were, in order.
   */
  lemma CollapseSpacesAppend(a: string, b: string, sep: string)
    requires forall c :: c in sep ==> !JsSpace(c)
    requires a == [] || b == [] || !JsSpace(a[|a| - 1]) || !JsSpace(b[0])
    ensures CollapseSpaces(a + b, sep) == CollapseSpaces(a, sep) + CollapseSpaces(b, sep)
  {
    CollapseSpacesIsScan(a + b, sep);
    CollapseSpacesIsScan(a, sep);
    CollapseSpacesIsScan(b, sep);
    ScanAppend(a, b, sep, false);
  }

  /** A word, a whitespace run and the rest: the run becomes one `sep` between the word and the collapsed rest. */
  lemma CollapseSpacesJoinsWords(first: string, gap: string, rest: string, sep: string)
    requires forall c :: c in sep ==> !JsSpace(c)
    requires first != [] && forall c :: c in first ==> !JsSpace(c)
    requires gap != [] && forall i :: 0 <= i < |gap| ==> JsSpace(gap[i])
    requires rest != [] && !JsSpace(rest[0])
    ensures CollapseSpaces(first + gap + rest, sep) == first + sep + CollapseSpaces(rest, sep)
  {
    var tail := gap + rest;
    assert first + gap + rest == first + tail;
    WordThenText(first, tail, sep);
    RunThenWord(gap, rest, sep);
    assert first + (sep + CollapseSpaces(rest, sep)) == first + sep + CollapseSpaces(rest, sep);
  }

  /** A word without whitespace in front of any text is copied as it is. */
  lemma WordThenText(first: string, tail: string, sep: string)
    requires forall c :: c in sep ==> !JsSpace(c)
    requires first != [] && forall c :: c in first ==> !JsSpace(c)
    ensures CollapseSpaces(first + tail, sep) == first + CollapseSpaces(tail, sep)
  {
    assert first[|first| - 1] in first;
    CollapseSpacesAppend(first, tail, sep);
    CollapseSpacesIdentity(first, sep);
  }

  /** A whitespace run in front of a word becomes one `sep`. */
  lemma RunThenWord(gap: string, rest: string, sep: string)
    requires forall c :: c in sep ==> !JsSpace(c)
    requires gap != [] && forall i :: 0 <= i < |gap| ==> JsSpace(gap[i])
    requires rest != [] && !JsSpace(rest[0])
    ensures CollapseSpaces(gap + rest, sep) == sep + CollapseSpaces(rest, sep)
  {
    CollapseSpacesAppend(gap, rest, sep);
    CollapseSpacesRun(gap, sep);
  }

  // ---------------------------------------------------------------------------
  // Segments
  // ---------------------------------------------------------------------------

  /** The text after the last `sep` (JS `split(sep).pop()`, Python `split(sep)[-1]`, PHP `basename`). */
  function LastSegment(s: string, sep: char): (r: string)
    ensures sep !in r
    ensures |r| <= |s| && r == s[|s| - |r|..]
    ensures |r| < |s| ==> s[|s| - |r| - 1] == sep
    ensures sep !in s ==> r == s
    decreases |s|
  {
    if s == [] then []
    else if s[|s| - 1] == sep then []
    else
      var t := LastSegment(s[..|s| - 1], sep);
      assert s[..|s| - 1][|s| - 1 - |t|..] + [s[|s| - 1]] == s[|s| - 1 - |t|..];
      t + [s[|s| - 1]]
  }

  /** Python / JavaScript `split(sep)`: the pieces between separators, empty ones included. */
  function Split(s: string, sep: char): (r: seq<string>)
    ensures |r| >= 1
    ensures forall k :: 0 <= k < |r| ==> sep !in r[k]
    decreases |s|
  {
    if s == [] then [[]]
    else
      var init := Split(s[..|s| - 1], sep);
      if s[|s| - 1] == sep then init + [[]]
      else init[..|init| - 1] + [init[|init| - 1] + [s[|s| - 1]]]
  }

  function Join(parts: seq<string>, sep: char): string
    decreases |parts|
  {
    if parts == [] then []
    else if |parts| == 1 then parts[0]
    else Join(parts[..|parts| - 1], sep) + [sep] + parts[|parts| - 1]
  }

  /** PHP `implode` and Python `str.join`: the parts with `glue` between each neighbouring pair. */
  function Implode(parts: seq<string>, glue: string): (r: string)
    ensures parts == [] ==> r == []
    ensures |parts| == 1 ==> r == parts[0]
    decreases |parts|
  {
    if parts == [] then []
    else if |parts| == 1 then parts[0]
    else Implode(parts[..|parts| - 1], glue) + glue + parts[|parts| - 1]
  }

  lemma JoinAppendSep(parts: seq<string>, sep: char)
    requires parts != []
    ensures Join(parts + [[]], sep) == Join(parts, sep) + [sep]
  {
    assert (parts + [[]])[..|parts|] == parts;
  }

  lemma JoinAppendChar(parts: seq<string>, sep: char, c: char)
    requires parts != []
    ensures Join(parts[..|parts| - 1] + [parts[|parts| - 1] + [c]], sep) == Join(parts, sep) + [c]
  {
    var r := parts[..|parts| - 1] + [parts[|parts| - 1] + [c]];
    if |parts| > 1 {
      assert r[..|r| - 1] == parts[..|parts| - 1];
    }
  }

  /** Splitting and joining again gives back the original text. */
  lemma {:induction false} SplitJoin(s: string, sep: char)
    ensures Join(Split(s, sep), sep) == s
    decreases |s|
  {
    if s != [] {
      var prefix, c := s[..|s| - 1], s[|s| - 1];
      var init := Split(prefix, sep);
      SplitJoin(prefix, sep);
      assert prefix + [c] == s;
      if c == sep {
        assert Split(s, sep) == init + [[]];
        JoinAppendSep(init, sep);
      } else {
        assert Split(s, sep) == init[..|init| - 1] + [init[|init| - 1] + [c]];
        JoinAppendChar(init, sep, c);
      }
    }
  }

  /** The last piece of a split is the text after the last separator. */
  lemma {:induction false} SplitLastIsLastSegment(s: string, sep: char)
    ensures Split(s, sep)[|Split(s, sep)| - 1] == LastSegment(s, sep)
    decreases |s|
  {
    if s != [] && s[|s| - 1] != sep {
      SplitLastIsLastSegment(s[..|s| - 1], sep);
    }
  }

  /** The HTML `classList` of a `class` attribute: its non-empty space-separated tokens. */
  function ClassList(className: string): (r: set<string>)
    ensures forall c :: c in r ==> c != [] && ' ' !in c
  {
    set w | w in Split(className, ' ') && w != []
  }

  // ---------------------------------------------------------------------------
  // Decimal rendering of integers
  // ---------------------------------------------------------------------------

  predicate IsDigit(c: char) { '0' <= c <= '9' }

  function DigitChar(d: nat): (c: char)
    requires d < 10
    ensures IsDigit(c)
  {
    ('0' as int + d) as char
  }

  /** The decimal text of a natural number, without leading zeros. */
  function NatToString(n: nat): (r: string)
    ensures r != []
    ensures forall c :: c in r ==> IsDigit(c)
    ensures n >= 10 ==> r[0] != '0'
    decreases n
  {
    if n < 10 then [DigitChar(n)]
    else
      var h := NatToString(n / 10);
      h + [DigitChar(n % 10)]
  }

  lemma {:induction false} NatToStringInjective(a: nat, b: nat)
    requires NatToString(a) == NatToString(b)
    ensures a == b
    decreases a
  {
    var sa, sb := NatToString(a), NatToString(b);
    if a < 10 && b < 10 {
    } else if a < 10 || b < 10 {
    } else {
      assert sa[|sa| - 1] == sb[|sb| - 1];
      assert sa[..|sa| - 1] == NatToString(a / 10);
      assert sb[..|sb| - 1] == NatToString(b / 10);
      NatToStringInjective(a / 10, b / 10);
    }
  }

  /** JS / Python / PHP rendering of an integer: a '-' before the digits when negative. */
  function IntToString(n: int): (r: string)
    ensures r != []
    ensures forall c :: c in r ==> IsDigit(c) || c == '-'
  {
    if n < 0 then "-" + NatToString(-n) else NatToString(n)
  }

  // ---------------------------------------------------------------------------
  // JavaScript parseInt
  // ---------------------------------------------------------------------------

  /** The value of `c` as a digit in base `radix` (10 or 16), if it is one. */
  function DigitOf(c: char, radix: nat): (r: Option<nat>)
    ensures r.Some? ==> r.value < radix || radix < 10
  {
    if '0' <= c <= '9' then Some(c as int - '0' as int)
    else if radix == 16 && 'a' <= c <= 'f' then Some(c as int - 'a' as int + 10)
    else if radix == 16 && 'A' <= c <= 'F' then Some(c as int - 'A' as int + 10)
    else None
  }

  /** The longest prefix of `s` made of digits of `radix`. */
  function DigitPrefix(s: string, radix: nat): (r: string)
    ensures |r| <= |s| && r == s[..|r|]
    ensures forall i :: 0 <= i < |r| ==> DigitOf(r[i], radix).Some?
    ensures |r| < |s| ==> DigitOf(s[|r|], radix).None?
    decreases |s|
  {
    if s == [] || DigitOf(s[0], radix).None? then []
    else [s[0]] + DigitPrefix(s[1..], radix)
  }

  /** The number that a string of digits of `radix` denotes, most significant first. */
  function DigitsValue(ds: string, radix: nat): nat
    requires forall i :: 0 <= i < |ds| ==> DigitOf(ds[i], radix).Some?
    decreases |ds|
  {
    if ds == [] then 0
    else
      var prefix := ds[..|ds| - 1];
      assert forall i :: 0 <= i < |prefix| ==> prefix[i] == ds[i];
      var high: nat := DigitsValue(prefix, radix);
      ProductOfNats(high, radix);
      high * radix + DigitOf(ds[|ds| - 1], radix).value
  }

  lemma ProductOfNats(a: nat, b: nat)
    ensures a * b >= 0
  {
  }

  /** The value of the leading digits of `s` in base `radix`, or NaN (`None`) when there are none. */
  function LeadingValue(s: string, radix: nat): (r: Option<nat>)
    ensures r.None? <==> s == [] || DigitOf(s[0], radix).None?
  {
    var ds := DigitPrefix(s, radix);
    if ds == [] then None else Some(DigitsValue(ds, radix))
  }

  /** `parseInt` after the sign: a `0x`/`0X` prefix selects base 16. */
  function ParseUnsigned(u: string): Option<nat> {
    if |u| >= 2 && u[0] == '0' && (u[1] == 'x' || u[1] == 'X') then LeadingValue(u[2..], 16)
    else LeadingValue(u, 10)
  }

  /**
   * JavaScript `parseInt(s)` without a radix: leading whitespace is skipped, a
   * sign is read, a `0x`/`0X` prefix selects base 16, and the longest run of
   * digits that follows is the value. No digits at all gives NaN (`None`).
   */
  function JsParseInt(s: string): (r: Option<int>)
    ensures r.None? <==> ParseUnsigned(SignDropped(TrimLeft(s, JsSpace))).None?
  {
    var t := TrimLeft(s, JsSpace);
    WithSign(t, ParseUnsigned(SignDropped(t)))
  }

  /** Negates the magnitude when the text starts with '-'. */
  function WithSign(t: string, magnitude: Option<nat>): (r: Option<int>)
    ensures r.None? <==> magnitude.None?
    ensures r.Some? && t != [] && t[0] == '-' ==> r.value == -(magnitude.value as int)
    ensures r.Some? && (t == [] || t[0] != '-') ==> r.value == magnitude.value
  {
    match magnitude
    case None => None
    case Some(v) => if t != [] && t[0] == '-' then Some(-(v as int)) else Some(v)
  }

  function SignDropped(t: string): (u: string)
    ensures u == t || (t != [] && u == t[1..] && (t[0] == '-' || t[0] == '+'))
  {
    if t != [] && (t[0] == '-' || t[0] == '+') then t[1..] else t
  }

  lemma {:induction false} DigitsValueOfNatToString(n: nat)
    ensures forall i :: 0 <= i < |NatToString(n)| ==> DigitOf(NatToString(n)[i], 10).Some?
    ensures DigitsValue(NatToString(n), 10) == n
    decreases n
  {
    var r := NatToString(n);
    assert forall i :: 0 <= i < |r| ==> r[i] in r;
    if n >= 10 {
      DigitsValueOfNatToString(n / 10);
      assert r[..|r| - 1] == NatToString(n / 10);
    }
  }

  lemma TrimLeftNoSpace(s: string)
    requires s != [] && IsDigit(s[0])
    ensures TrimLeft(s, JsSpace) == s
  {
  }

  /** On text that starts with a decimal digit and no `0x` prefix, `parseInt` reads the leading digits. */
  lemma ParseIntLeadingDigits(s: string)
    requires s != [] && IsDigit(s[0])
    requires !(|s| >= 2 && s[0] == '0' && (s[1] == 'x' || s[1] == 'X'))
    ensures JsParseInt(s) == Some(DigitsValue(DigitPrefix(s, 10), 10))
  {
    TrimLeftNoSpace(s);
    assert ParseUnsigned(SignDropped(s)) == LeadingValue(s, 10);
  }

  /** `parseInt` reads back the decimal text of a natural number, whatever non-digit text follows it. */
  lemma ParseIntOfNatToString(n: nat, suffix: string)
    requires suffix == [] || (DigitOf(suffix[0], 10).None? && suffix[0] != 'x' && suffix[0] != 'X')
    ensures JsParseInt(NatToString(n) + suffix) == Some(n)
  {
    var d := NatToString(n);
    var s := d + suffix;
    DigitsValueOfNatToString(n);
    assert d[0] in d;
    assert forall i :: 0 <= i < |d| ==> IsDigit(d[i]) by {
      forall i | 0 <= i < |d| ensures IsDigit(d[i]) { assert d[i] in d; }
    }
    if |s| >= 2 && s[0] == '0' {
      assert n < 10;
      assert s[1] == suffix[0];
    }
    ParseIntLeadingDigits(s);
    DigitPrefixOfDigits(d, suffix);
  }

  lemma {:induction false} DigitPrefixOfDigits(d: string, suffix: string)
    requires forall i :: 0 <= i < |d| ==> IsDigit(d[i])
    requires suffix == [] || DigitOf(suffix[0], 10).None?
    ensures DigitPrefix(d + suffix, 10) == d
    decreases |d|
  {
    if d == [] {
      assert d + suffix == suffix;
    } else {
      assert (d + suffix)[1..] == d[1..] + suffix;
      DigitPrefixOfDigits(d[1..], suffix);
    }
  }

  // ---------------------------------------------------------------------------
  // HTML escaping
  // ---------------------------------------------------------------------------

  function EscapeChar(c: char): (r: string)
    ensures '<' !in r && '>' !in r && '"' !in r && '\'' !in r
  {
    if c == '&' then "&amp;"
    else if c == '<' then "&lt;"
    else if c == '>' then "&gt;"
    else if c == '"' then "&quot;"
    else if c == '\'' then "&#039;"
    else [c]
  }

  /** The characters `htmlspecialchars` replaces. */
  predicate HtmlSpecial(c: char) {
    c == '&' || c == '<' || c == '>' || c == '"' || c == '\''
  }

  /** PHP 8 `htmlspecialchars` with its default flags (ENT_QUOTES): & < > " ' become entities. */
  function HtmlEscape(s: string): (r: string)
    ensures '<' !in r && '>' !in r && '"' !in r && '\'' !in r
    decreases |s|
  {
    if s == [] then [] else EscapeChar(s[0]) + HtmlEscape(s[1..])
  }

  /** Text without any of the five special characters comes through unchanged. */
  lemma {:induction false} HtmlEscapePlain(s: string)
    requires forall i :: 0 <= i < |s| ==> !HtmlSpecial(s[i])
    ensures HtmlEscape(s) == s
    decreases |s|
  {
    if s != [] {
      assert forall i :: 0 <= i < |s[1..]| ==> !HtmlSpecial(s[1..][i]) by {
        forall i | 0 <= i < |s[1..]| ensures !HtmlSpecial(s[1..][i]) { assert s[1..][i] == s[i + 1]; }
      }
      HtmlEscapePlain(s[1..]);
      assert EscapeChar(s[0]) == [s[0]] by { assert !HtmlSpecial(s[0]); }
      assert [s[0]] + s[1..] == s;
    }
  }

  datatype Option<+T> = None | Some(value: T) {
    function GetOr(default: T): T {
      match this
      case Some(v) => v
      case None => default
    }
  }
}
