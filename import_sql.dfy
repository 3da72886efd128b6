/**
 * The dump import, scripts/import_sql.py: the MySQL-to-SQLite rewrite of one
 * statement (`convert_mysql_to_sqlite`), the split of the dump into statements
 * on `;\s*\n`, and the rule that decides which statements are skipped and which
 * are converted and handed to SQLite, in file order.
 *
 * Python's `\s` and `\w` are taken on ASCII text. Reading the file and running
 * each statement are not modelled: the result of the import is the sequence of
 * converted statements given to `cursor.execute`.
 */
module ImportSql {
  import opened Strings
  import Query

  // ---------------------------------------------------------------------------
  // Regular-expression pieces
  // ---------------------------------------------------------------------------

  /** `\w` on ASCII text. */
  predicate WordChar(c: char) {
    'a' <= c <= 'z' || 'A' <= c <= 'Z' || '0' <= c <= '9' || c == '_'
  }

  /** The length of the longest prefix of `s` whose characters all satisfy `ok` (a greedy `[…]*`). */
  function RunLength(s: string, ok: char -> bool): (n: nat)
    ensures n <= |s|
    ensures forall i :: 0 <= i < n ==> ok(s[i])
    ensures n < |s| ==> !ok(s[n])
    decreases |s|
  {
    if s != [] && ok(s[0]) then 1 + RunLength(s[1..], ok) else 0
  }

  /**
   * `re.sub(pattern, '', s)` for a pattern that never matches the empty text:
   * `m(t)` is the length of the match at the start of `t` (0 for none); the scan
   * resumes after each match, so matches never overlap.
   */
  function Delete(s: string, m: string -> nat): (r: string)
    ensures |r| <= |s|
    decreases |s|
  {
    if s == [] then []
    else if 0 < m(s) <= |s| then Delete(s[m(s)..], m)
    else [s[0]] + Delete(s[1..], m)
  }

  const CharacterSet: string := "CHARACTER SET "
  const Collate: string := "COLLATE "
  const Engine: string := "ENGINE="

  /** `CHARACTER SET \w+` at the start of `t`: the whole run of word characters is taken. */
  function CharsetMatch(t: string): (n: nat)
    ensures n > 0 ==> StartsWith(t, CharacterSet) && |CharacterSet| < n <= |t|
  {
    if StartsWith(t, CharacterSet) then
      var w := RunLength(t[|CharacterSet|..], WordChar);
      if w > 0 then |CharacterSet| + w else 0
    else 0
  }

  /**
   * `COLLATE \w+_\w+` at the start of `t`: the greedy first `\w+` backs off to
   * the last underscore that has a word character on each side, and the second
   * takes the rest of the run; so the match is the whole run when it has such an
   * underscore, and there is none otherwise.
   */
  function CollateMatch(t: string): (n: nat)
    ensures n > 0 ==> StartsWith(t, Collate) && |Collate| < n <= |t|
  {
    if StartsWith(t, Collate) then
      var w := RunLength(t[|Collate|..], WordChar);
      if InnerUnderscore(t[|Collate|..][..w]) then |Collate| + w else 0
    else 0
  }

  /** An underscore with at least one character before it and one after it. */
  predicate InnerUnderscore(w: string) {
    exists k :: 1 <= k < |w| - 1 && w[k] == '_'
  }

  /** `ENGINE=\w+\s*` at the start of `t`. */
  function EngineMatch(t: string): (n: nat)
    ensures n > 0 ==> StartsWith(t, Engine) && |Engine| < n <= |t|
  {
    if StartsWith(t, Engine) then
      var w := RunLength(t[|Engine|..], WordChar);
      if w > 0 then |Engine| + w + RunLength(t[|Engine| + w..], PySpace) else 0
    else 0
  }

  // ---------------------------------------------------------------------------
  // convert_mysql_to_sqlite
  // ---------------------------------------------------------------------------

  const IntType: string := "int(11)"
  const Integer: string := "INTEGER"
  const LowerText: string := "text"
  const Text: string := "TEXT"
  const Datetime: string := "datetime"
  const Timestamp: string := "timestamp"
  const AutoIncrement: string := "AUTO_INCREMENT"
  const Unsigned: string := "UNSIGNED"
  const OnUpdate: string := "ON UPDATE CURRENT_TIMESTAMP"
  const RealComma: string := "REAL,"
  const Real: string := "REAL"

  /**
   * The three patterns written like regular expressions but given to
   * `str.replace`, which looks for them character for character, backslashes
   * included.
   */
  const VarcharPattern: string := "varchar\\((\\d+)\\)"
  const DecimalCommaPattern: string := "decimal\\([\\d,]+\\),"
  const DecimalPattern: string := "decimal\\([\\d,]+\\)"

  /**
   * The rewrite of one statement: thirteen steps, in this order, each over the
   * whole text. None of the replacement texts holds a backslash, so a statement
   * written without one comes out without one.
   */
  function Convert(sql: string): (r: string)
    ensures NoBackslash(sql) ==> NoBackslash(r)
  {
    var s1 := Delete(sql, CharsetMatch);
    var s2 := Delete(s1, CollateMatch);
    var s3 := ReplaceAll(s2, IntType, Integer);
    var s4 := ReplaceAll(s3, VarcharPattern, Text);
    var s5 := ReplaceAll(s4, LowerText, Text);
    var s6 := ReplaceAll(s5, Datetime, Text);
    var s7 := ReplaceAll(s6, Timestamp, Text);
    var s8 := ReplaceAll(s7, DecimalCommaPattern, RealComma);
    var s9 := ReplaceAll(s8, DecimalPattern, Real);
    var s10 := Delete(s9, EngineMatch);
    var s11 := ReplaceAll(s10, AutoIncrement, "");
    var s12 := ReplaceAll(s11, Unsigned, "");
    var r := ReplaceAll(s12, OnUpdate, "");
    if !NoBackslash(sql) then r
    else
      ReplacementsInert();
      DeleteKeeps(sql, CharsetMatch); DeleteKeeps(s1, CollateMatch);
      ReplaceAllKeeps(s2, IntType, Integer); ReplaceAllKeeps(s3, VarcharPattern, Text);
      ReplaceAllKeeps(s4, LowerText, Text); ReplaceAllKeeps(s5, Datetime, Text);
      ReplaceAllKeeps(s6, Timestamp, Text); ReplaceAllKeeps(s7, DecimalCommaPattern, RealComma);
      ReplaceAllKeeps(s8, DecimalPattern, Real); DeleteKeeps(s9, EngineMatch);
      ReplaceAllKeeps(s10, AutoIncrement, ""); ReplaceAllKeeps(s11, Unsigned, "");
      ReplaceAllKeeps(s12, OnUpdate, "");
      r
  }

  /** The rewrite without the three backslash patterns: the steps that can change a dump written without backslashes. */
  function EffectiveConvert(sql: string): string {
    var s1 := Delete(sql, CharsetMatch);
    var s2 := Delete(s1, CollateMatch);
    var s3 := ReplaceAll(s2, IntType, Integer);
    var s5 := ReplaceAll(s3, LowerText, Text);
    var s6 := ReplaceAll(s5, Datetime, Text);
    var s7 := ReplaceAll(s6, Timestamp, Text);
    var s10 := Delete(s7, EngineMatch);
    var s11 := ReplaceAll(s10, AutoIncrement, "");
    var s12 := ReplaceAll(s11, Unsigned, "");
    ReplaceAll(s12, OnUpdate, "")
  }

  predicate NotBackslash(c: char) { c != '\\' }

  predicate NoBackslash(s: string) {
    forall i :: 0 <= i < |s| ==> NotBackslash(s[i])
  }

  /** The replacement texts of the rewrite hold no backslash. */
  lemma ReplacementsInert()
    ensures NoBackslash(Integer) && NoBackslash(Text) && NoBackslash(RealComma) && NoBackslash(Real) && NoBackslash("")
  {
  }

  lemma {:induction false} DeleteKeeps(s: string, m: string -> nat)
    requires NoBackslash(s)
    ensures NoBackslash(Delete(s, m))
    decreases |s|
  {
    if s == [] {
    } else if 0 < m(s) <= |s| {
      DeleteKeeps(s[m(s)..], m);
    } else {
      DeleteKeeps(s[1..], m);
    }
  }

  lemma {:induction false} ReplaceAllKeeps(s: string, p: string, q: string)
    requires p != []
    requires NoBackslash(s) && NoBackslash(q)
    ensures NoBackslash(ReplaceAll(s, p, q))
    decreases |s|
  {
    if |s| < |p| {
    } else if StartsWith(s, p) {
      ReplaceAllKeeps(s[|p|..], p, q);
    } else {
      ReplaceAllKeeps(s[1..], p, q);
    }
  }

  /** A pattern with a backslash at position `b` cannot occur in a text without one, so replacing it changes nothing. */
  lemma PatternInert(s: string, p: string, b: nat, q: string)
    requires b < |p| && p[b] == '\\'
    requires NoBackslash(s)
    ensures ReplaceAll(s, p, q) == s
  {
    if Contains(s, p) {
      ContainsImpliesOccurs(s, p);
      assert false;
    }
    ReplaceAllAbsent(s, p, q);
  }

  /**
   * On a text without backslashes, the `varchar(...)` and `decimal(...)`
   * replacements never fire: `varchar(255)` and `decimal(10,2)` reach SQLite as
   * written, and the rewrite is the ten remaining steps.
   */
  lemma BackslashPatternsInert(sql: string)
    requires NoBackslash(sql)
    ensures Convert(sql) == EffectiveConvert(sql)
  {
    var s1 := Delete(sql, CharsetMatch);
    DeleteKeeps(sql, CharsetMatch);
    var s2 := Delete(s1, CollateMatch);
    DeleteKeeps(s1, CollateMatch);
    var s3 := ReplaceAll(s2, IntType, Integer);
    ReplaceAllKeeps(s2, IntType, Integer);
    PatternInert(s3, VarcharPattern, 7, Text);
    var s5 := ReplaceAll(s3, LowerText, Text);
    var s6 := ReplaceAll(s5, Datetime, Text);
    var s7 := ReplaceAll(s6, Timestamp, Text);
    ReplaceAllKeeps(s3, LowerText, Text);
    ReplaceAllKeeps(s5, Datetime, Text);
    ReplaceAllKeeps(s6, Timestamp, Text);
    PatternInert(s7, DecimalCommaPattern, 7, RealComma);
    PatternInert(s7, DecimalPattern, 7, Real);
  }

  /** A prefix at none of whose positions the pattern starts is copied through unchanged. */
  lemma {:induction false} ReplaceAllCopiesPrefix(x: string, t: string, p: string, q: string)
    requires p != []
    requires forall j :: 0 <= j < |x| ==> !StartsWith((x + t)[j..], p)
    ensures ReplaceAll(x + t, p, q) == x + ReplaceAll(t, p, q)
    decreases |x|
  {
    if x == [] {
      assert x + t == t;
    } else {
      var s := x + t;
      assert s[0..] == s;
      if |s| >= |p| {
        assert s[1..] == x[1..] + t;
        forall j | 0 <= j < |x[1..]|
          ensures !StartsWith((x[1..] + t)[j..], p)
        {
          assert (x[1..] + t)[j..] == s[j + 1..];
        }
        ReplaceAllCopiesPrefix(x[1..], t, p, q);
        assert x == [x[0]] + x[1..];
      }
    }
  }

  /** `str.replace` rewrites inside identifiers too: a column named `context` becomes `conTEXT`. */
  lemma InsideIdentifiers()
    ensures ReplaceAll("context", LowerText, Text) == "conTEXT"
  {
    var x, t := "con", LowerText;
    forall j | 0 <= j < |x|
      ensures !StartsWith((x + t)[j..], LowerText)
    {
      assert (x + t)[j..][0] == x[j] != LowerText[0];
    }
    ReplaceAllCopiesPrefix(x, t, LowerText, Text);
    assert t[..|LowerText|] == LowerText && t[|LowerText|..] == [];
    assert x + t == "context";
  }

  /** The deletion is one left-to-right pass: deleting the inner occurrence joins the outer halves into a new one, which stays. */
  lemma SinglePassDeletion()
    ensures ReplaceAll("AUTO_" + AutoIncrement + "INCREMENT", AutoIncrement, "") == AutoIncrement
  {
    var x, p, y := "AUTO_", AutoIncrement, "INCREMENT";
    assert x + p + y == x + (p + y);
    calc {
      ReplaceAll(x + (p + y), p, "");
      == { NoMatchInPrefix(); ReplaceAllCopiesPrefix(x, p + y, p, ""); }
      x + ReplaceAll(p + y, p, "");
      == { assert StartsWith(p + y, p) && (p + y)[|p|..] == y; }
      x + ReplaceAll(y, p, "");
      == { assert |y| < |p|; }
      x + y;
    }
    assert x + y == AutoIncrement;
  }

  /** In "AUTO_AUTO_INCREMENTINCREMENT" no occurrence of the pattern starts within the first five characters. */
  lemma NoMatchInPrefix()
    ensures forall j :: 0 <= j < 5 ==> !StartsWith(("AUTO_" + (AutoIncrement + "INCREMENT"))[j..], AutoIncrement)
  {
    var s := "AUTO_" + (AutoIncrement + "INCREMENT");
    forall j | 0 <= j < 5
      ensures !StartsWith(s[j..], AutoIncrement)
    {
      if j == 0 {
        assert s[j..][5] == 'A' != AutoIncrement[5];
      } else {
        assert s[j..][0] != AutoIncrement[0];
      }
    }
  }

  // ---------------------------------------------------------------------------
  // Splitting the dump on `;\s*\n`
  // ---------------------------------------------------------------------------

  /**
   * Scanning the whitespace run from `j`: the position just after its last
   * newline, or `found` when the run has no newline from `j` on. The greedy `\s*`
   * backs off to that newline, so this is where the separator ends.
   */
  function NewlineEnd(s: string, j: nat, found: Option<nat>): (r: Option<nat>)
    requires j <= |s|
    ensures r.Some? ==> r == found || (j < r.value <= |s| && s[r.value - 1] == '\n' && forall k :: j <= k < r.value ==> PySpace(s[k]))
    ensures found.Some? ==> r.Some?
    decreases |s| - j
  {
    if j < |s| && PySpace(s[j]) then NewlineEnd(s, j + 1, if s[j] == '\n' then Some(j + 1) else found) else found
  }

  /** A separator `;\s*\n` starts at `i` exactly when this is where it ends. */
  function TerminatorEnd(s: string, i: nat): (r: Option<nat>)
    requires i < |s|
    ensures r.Some? ==> i + 2 <= r.value <= |s| && s[i] == ';' && s[r.value - 1] == '\n'
    ensures r.Some? ==> forall k :: i + 1 <= k < r.value ==> PySpace(s[k])
  {
    if s[i] == ';' then NewlineEnd(s, i + 1, None) else None
  }

  /** The first separator at or after `i`: where it starts and where it ends. */
  function FirstTerminator(s: string, i: nat): (r: Option<(nat, nat)>)
    requires i <= |s|
    ensures r.Some? ==> i <= r.value.0 < |s| && TerminatorEnd(s, r.value.0) == Some(r.value.1)
    ensures r.Some? ==> forall j :: i <= j < r.value.0 ==> TerminatorEnd(s, j).None?
    ensures r.None? ==> forall j :: i <= j < |s| ==> TerminatorEnd(s, j).None?
    decreases |s| - i
  {
    if i == |s| then None
    else match TerminatorEnd(s, i)
      case Some(e) => Some((i, e))
      case None => FirstTerminator(s, i + 1)
  }

  /** `re.split(r';\s*\n', sql)`: the texts between separators. */
  function SplitStatements(s: string): (r: seq<string>)
    ensures |r| >= 1
    decreases |s|
  {
    match FirstTerminator(s, 0)
    case None => [s]
    case Some((i, e)) => [s[..i]] + SplitStatements(s[e..])
  }

  /** The separators `SplitStatements` cut out, in order. */
  function Separators(s: string): (r: seq<string>)
    ensures |r| + 1 == |SplitStatements(s)|
    decreases |s|
  {
    match FirstTerminator(s, 0)
    case None => []
    case Some((i, e)) => [s[i..e]] + Separators(s[e..])
  }

  /** Pieces and separators put back in turn. */
  function Interleave(pieces: seq<string>, seps: seq<string>): string
    requires |pieces| == |seps| + 1
  {
    if seps == [] then pieces[0] else pieces[0] + seps[0] + Interleave(pieces[1..], seps[1..])
  }

  /** A separator: a semicolon, then whitespace only, the last of it a newline. */
  predicate IsTerminator(t: string) {
    |t| >= 2 && t[0] == ';' && t[|t| - 1] == '\n' && forall k :: 1 <= k < |t| ==> PySpace(t[k])
  }

  /** One cut: the first statement and separator, then the split of what follows. */
  lemma SplitStep(s: string, i: nat, e: nat)
    requires FirstTerminator(s, 0) == Some((i, e))
    ensures i <= e <= |s|
    ensures SplitStatements(s) == [s[..i]] + SplitStatements(s[e..])
    ensures Separators(s) == [s[i..e]] + Separators(s[e..])
  {
  }

  /** Nothing is lost in the split: the statements and the separators between them make up the dump. */
  lemma {:induction false} SplitRoundTrip(s: string)
    ensures Interleave(SplitStatements(s), Separators(s)) == s
    decreases |s|
  {
    var cut := FirstTerminator(s, 0);
    if cut.Some? {
      var i, e := cut.value.0, cut.value.1;
      SplitStep(s, i, e);
      var pieces, seps := SplitStatements(s), Separators(s);
      assert pieces[1..] == SplitStatements(s[e..]) && seps[1..] == Separators(s[e..]);
      SplitRoundTrip(s[e..]);
      assert Interleave(pieces, seps) == s[..i] + s[i..e] + s[e..];
      Reassemble(s, i, e);
    }
  }

  lemma Reassemble(s: string, i: nat, e: nat)
    requires i <= e <= |s|
    ensures s[..i] + s[i..e] + s[e..] == s
  {
    assert s[..i] + s[i..e] == s[..e];
  }

  /** Every separator cut out is a semicolon followed by whitespace ending in a newline. */
  lemma {:induction false} SeparatorsAreTerminators(s: string)
    ensures forall k :: 0 <= k < |Separators(s)| ==> IsTerminator(Separators(s)[k])
    decreases |s|
  {
    match FirstTerminator(s, 0)
    case None =>
    case Some((i, e)) =>
      SeparatorsAreTerminators(s[e..]);
      var t := s[i..e];
      assert forall k :: 1 <= k < |t| ==> t[k] == s[i + k];
      assert IsTerminator(t);
  }

  /** A newline found in a prefix of the text is found in the whole text. */
  lemma {:induction false} NewlineEndPrefix(s: string, n: nat, j: nat, found: Option<nat>)
    requires j <= n <= |s|
    requires NewlineEnd(s, j, found).None?
    ensures NewlineEnd(s[..n], j, found).None?
    decreases n - j
  {
    if j < n && PySpace(s[..n][j]) {
      NewlineEndPrefix(s, n, j + 1, if s[j] == '\n' then Some(j + 1) else found);
    }
  }

  /** The text before the first separator contains no separator of its own. */
  lemma PrefixHasNoTerminator(s: string, i: nat)
    requires i <= |s|
    requires forall j :: 0 <= j < i ==> TerminatorEnd(s, j).None?
    ensures FirstTerminator(s[..i], 0).None?
  {
    var p := s[..i];
    forall j | 0 <= j < i
      ensures TerminatorEnd(p, j).None?
    {
      if s[j] == ';' {
        assert TerminatorEnd(s, j).None?;
        NewlineEndPrefix(s, i, j + 1, None);
      }
    }
  }

  /** No statement handed on still holds a separator: the split finds every one. */
  lemma {:induction false} PiecesHaveNoTerminator(s: string)
    ensures forall k :: 0 <= k < |SplitStatements(s)| ==> FirstTerminator(SplitStatements(s)[k], 0).None?
    decreases |s|
  {
    match FirstTerminator(s, 0)
    case None =>
    case Some((i, e)) =>
      PiecesHaveNoTerminator(s[e..]);
      PrefixHasNoTerminator(s, i);
  }

  // ---------------------------------------------------------------------------
  // The skip rule and the import loop
  // ---------------------------------------------------------------------------

  const LineComment: string := "--"
  const BlockComment: string := "/*"
  const SetWord: string := "SET "
  const UseWord: string := "USE "

  /**
   * A statement is skipped when, once stripped, it is empty, starts a comment,
   * or its upper-case form contains `SET ` or `USE ` anywhere.
   */
  predicate Skipped(statement: string) {
    var t := PyStrip(statement);
    t == [] || StartsWith(t, LineComment) || StartsWith(t, BlockComment)
    || Contains(ToUpper(t), SetWord) || Contains(ToUpper(t), UseWord)
  }

  /** What one statement contributes: nothing when skipped, else its stripped text converted. */
  function Step(statement: string): (r: seq<string>)
    ensures |r| <= 1
    ensures r == [] <==> Skipped(statement)
  {
    if Skipped(statement) then [] else [Convert(PyStrip(statement))]
  }

  /** What reaches `cursor.execute`: each kept statement, stripped and converted, in order. */
  function Executed(statements: seq<string>): seq<string> {
    Query.FlatMap(statements, Step)
  }

  /** Statements are handled one by one: the import of two parts of a dump is the import of each, in order. */
  lemma ExecutedAppend(a: seq<string>, b: seq<string>)
    ensures Executed(a + b) == Executed(a) + Executed(b)
  {
    Query.FlatMapAppend(a, b, Step);
  }

  lemma ExecutedSnoc(statements: seq<string>, k: nat)
    requires k < |statements|
    ensures Executed(statements[..k + 1]) == Executed(statements[..k]) + Step(statements[k])
  {
    Query.FlatMapSnoc(statements, k, Step);
  }

  /** Each statement adds at most one executed statement, and a skipped one adds none. */
  lemma {:induction false} ExecutedCount(statements: seq<string>)
    ensures |Executed(statements)| <= |statements|
    ensures (forall k :: 0 <= k < |statements| ==> Skipped(statements[k])) <==> Executed(statements) == []
  {
    if statements != [] {
      ExecutedCount(statements[1..]);
    }
  }

  /** With nothing skipped, statement `k` is executed as the `k`-th, converted. */
  lemma {:induction false} ExecutedWhenNoneSkipped(statements: seq<string>)
    requires forall k :: 0 <= k < |statements| ==> !Skipped(statements[k])
    ensures |Executed(statements)| == |statements|
    ensures forall k :: 0 <= k < |statements| ==> Executed(statements)[k] == Convert(PyStrip(statements[k]))
  {
    if statements != [] {
      ExecutedWhenNoneSkipped(statements[1..]);
    }
  }

  /**
   * `import_sql_to_sqlite` after the file is read: split the dump, then strip,
   * test and convert each statement in turn, handing the kept ones on.
   */
  method Import(sql: string) returns (executed: seq<string>)
    ensures executed == Executed(SplitStatements(sql))
  {
    var statements := SplitStatements(sql);
    executed := [];
    for k := 0 to |statements|
      invariant executed == Executed(statements[..k])
    {
      ExecutedSnoc(statements, k);
      var converted := HandleStatement(statements[k]);
      executed := executed + converted;
    }
    assert statements[..|statements|] == statements;
  }

  /** One pass of the loop: strip, the three skip tests in order, then the conversion. */
  method HandleStatement(raw: string) returns (converted: seq<string>)
    ensures converted == Step(raw)
  {
    var statement := PyStrip(raw);
    if statement == [] {
      return [];
    }
    if StartsWith(statement, LineComment) || StartsWith(statement, BlockComment) {
      return [];
    }
    var upper := ToUpper(statement);
    if Contains(upper, SetWord) || Contains(upper, UseWord) {
      return [];
    }
    converted := [Convert(statement)];
  }

  /** A table whose definition names a character set is skipped whole, since `CHARACTER SET ` contains `SET `. */
  lemma CharacterSetSkipped(statement: string)
    requires Contains(ToUpper(PyStrip(statement)), CharacterSet)
    ensures Skipped(statement)
  {
    assert CharacterSet[10..14] == SetWord;
    ContainsInner(ToUpper(PyStrip(statement)), CharacterSet, SetWord, 10);
  }

  /** A piece that starts with a `--` comment line is skipped whole, whatever statement follows the comment. */
  lemma CommentLedSkipped(rest: string)
    ensures Skipped(LineComment + rest)
  {
    var s := LineComment + rest;
    assert !PySpace(s[0]);
    var l := TrimLeft(s, PySpace);
    assert l == s;
    var t := TrimRight(l, PySpace);
    assert !PySpace(s[1]);
    assert |t| >= 2;
    assert t[..2] == s[..2];
  }
}
