/**
  The `document_changes` tool: classify the lines of `git status --porcelain`
  (version 1 short format, `XY path`) into modified, added, deleted and renamed
  paths, suggest a conventional-commit type, describe the change in a sentence,
  and build the log entry and the text report.
 */
module Changes {
  import opened Wrappers
  import opened Text
  import opened SessionLog

  /** The two-character status code of a porcelain line (`substring(0, 2)`). */
  function StatusCode(line: string): (r: string)
    ensures |r| == Min(2, |line|) && r == line[..|r|]
  {
    Take(line, 2)
  }

  /** The path of a porcelain line (`substring(3)`). */
  function PathOf(line: string): string
  {
    Drop(line, 3)
  }

  /** The lines of `git status --porcelain` that the handler classifies. */
  function StatusLines(gitStatus: string): seq<string>
  {
    NonBlank(Lines(gitStatus))
  }

  /** The paths of the lines whose status code holds `letter`, in line order. */
  function Category(lines: seq<string>, letter: char): (r: seq<string>)
    ensures |r| <= |lines|
  {
    if lines == [] then []
    else
      var last := lines[|lines| - 1];
      Category(lines[..|lines| - 1], letter) + (if letter in StatusCode(last) then [PathOf(last)] else [])
  }

  /** The classification of a sequence of status lines. */
  function ClassifyLines(lines: seq<string>): ChangeSet
  {
    ChangeSet(Category(lines, 'M'), Category(lines, 'A'), Category(lines, 'D'), Category(lines, 'R'))
  }

  /** The classification of a whole status listing. */
  function Classify(gitStatus: string): ChangeSet
  {
    ClassifyLines(StatusLines(gitStatus))
  }

  /** The `forEach` over the status lines that pushes each path into every
      list whose letter its status code holds. */
  method ClassifyStatus(gitStatus: string) returns (changes: ChangeSet)
    ensures changes == Classify(gitStatus)
  {
    var lines := StatusLines(gitStatus);
    var modified, added, deleted, renamed := [], [], [], [];
    var i := 0;
    while i < |lines|
      invariant 0 <= i <= |lines|
      invariant modified == Category(lines[..i], 'M')
      invariant added == Category(lines[..i], 'A')
      invariant deleted == Category(lines[..i], 'D')
      invariant renamed == Category(lines[..i], 'R')
    {
      var line := lines[i];
      var status := StatusCode(line);
      var file := PathOf(line);
      if 'M' in status { modified := modified + [file]; }
      if 'A' in status { added := added + [file]; }
      if 'D' in status { deleted := deleted + [file]; }
      if 'R' in status { renamed := renamed + [file]; }
      assert lines[..i + 1][..i] == lines[..i];
      i := i + 1;
    }
    assert lines[..i] == lines;
    changes := ChangeSet(modified, added, deleted, renamed);
  }

  /** A path is in a category exactly when some line carrying it has the
      category's letter in its status code. */
  lemma {:induction false} CategoryMembership(lines: seq<string>, letter: char, path: string)
    ensures path in Category(lines, letter) <==>
            exists i :: 0 <= i < |lines| && letter in StatusCode(lines[i]) && PathOf(lines[i]) == path
  {
    if lines != [] {
      var init := lines[..|lines| - 1];
      CategoryMembership(init, letter, path);
      if path in Category(lines, letter) && path !in Category(init, letter) {
        assert letter in StatusCode(lines[|lines| - 1]) && PathOf(lines[|lines| - 1]) == path;
      }
      if exists i :: 0 <= i < |lines| && letter in StatusCode(lines[i]) && PathOf(lines[i]) == path {
        var i :| 0 <= i < |lines| && letter in StatusCode(lines[i]) && PathOf(lines[i]) == path;
        if i < |lines| - 1 {
          assert init[i] == lines[i];
        }
      }
    }
  }

  /** Classifying two listings one after the other is classifying their
      concatenation: every list keeps the order of the status lines. */
  lemma {:induction false} CategoryAppend(a: seq<string>, b: seq<string>, letter: char)
    ensures Category(a + b, letter) == Category(a, letter) + Category(b, letter)
  {
    if b == [] {
      assert a + b == a;
    } else {
      var b' := b[..|b| - 1];
      CategoryAppend(a, b', letter);
      assert (a + b)[..|a + b| - 1] == a + b';
      assert (a + b)[|a + b| - 1] == b[|b| - 1];
    }
  }

  /** A single non-blank line is the only status line. */
  lemma SingleStatusLine(line: string)
    requires '\n' !in line && !IsBlank(line)
    ensures StatusLines(line) == [line]
  {
    LinesSingle(line);
  }

  /** A listing of one such line is classified as that line alone. */
  lemma ClassifySingle(line: string)
    requires '\n' !in line && !IsBlank(line)
    ensures Classify(line) == ClassifyLines([line])
  {
    SingleStatusLine(line);
  }

  /** One status line goes into the lists whose letters its code holds. */
  lemma ClassifyOne(line: string)
    ensures ClassifyLines([line]) == ChangeSet(
      if 'M' in StatusCode(line) then [PathOf(line)] else [],
      if 'A' in StatusCode(line) then [PathOf(line)] else [],
      if 'D' in StatusCode(line) then [PathOf(line)] else [],
      if 'R' in StatusCode(line) then [PathOf(line)] else [])
  {
    assert [line][..0] == [];
  }

  /** An untracked line (`?? path`) lands in no list. */
  lemma UntrackedLandsNowhere(path: string)
    requires '\n' !in path
    ensures Classify("?? " + path) == ChangeSet([], [], [], [])
  {
    var u := "?? " + path;
    assert u[0] == '?';
    ClassifySingle(u);
    assert StatusCode(u) == "??";
    ClassifyOne(u);
  }

  /** A line whose code holds two letters (`RM`) lands in both of their lists. */
  lemma DoubleCodeLandsTwice(path: string)
    requires '\n' !in path
    ensures Classify("RM " + path) == ChangeSet([path], [], [], [path])
  {
    var r := "RM " + path;
    assert r[0] == 'R';
    ClassifySingle(r);
    assert StatusCode(r) == "RM";
    assert PathOf(r) == path;
    ClassifyOne(r);
  }

  /** The status lines of a listing whose first line is `first`. */
  lemma StatusLinesCons(first: string, rest: string)
    requires '\n' !in first
    ensures StatusLines(first + "\n" + rest) == NonBlank([first]) + StatusLines(rest)
  {
    LinesCons(first, rest);
    NonBlankAppend([first], Lines(rest));
  }

  /** Three non-blank lines joined by line feeds are three status lines. */
  lemma StatusLinesThree(l1: string, l2: string, l3: string)
    requires '\n' !in l1 && '\n' !in l2 && '\n' !in l3
    requires !IsBlank(l1) && !IsBlank(l2) && !IsBlank(l3)
    ensures StatusLines(l1 + "\n" + l2 + "\n" + l3) == [l1, l2, l3]
  {
    assert l1 + "\n" + l2 + "\n" + l3 == l1 + "\n" + (l2 + "\n" + l3);
    StatusLinesCons(l1, l2 + "\n" + l3);
    StatusLinesCons(l2, l3);
    SingleStatusLine(l3);
    assert NonBlank([l1]) == [l1];
    assert NonBlank([l2]) == [l2];
  }

  /** Three status lines are classified line by line. */
  lemma ClassifyThree(l1: string, l2: string, l3: string)
    ensures var c1, c2, c3 := ClassifyLines([l1]), ClassifyLines([l2]), ClassifyLines([l3]);
      ClassifyLines([l1, l2, l3]) == ChangeSet(
        c1.modified + c2.modified + c3.modified,
        c1.added + c2.added + c3.added,
        c1.deleted + c2.deleted + c3.deleted,
        c1.renamed + c2.renamed + c3.renamed)
  {
    assert [l1, l2, l3] == [l1] + [l2] + [l3];
    forall letter
      ensures Category([l1, l2, l3], letter) == Category([l1], letter) + Category([l2], letter) + Category([l3], letter)
    {
      CategoryAppend([l1] + [l2], [l3], letter);
      CategoryAppend([l1], [l2], letter);
    }
  }

  /** A listing in git's porcelain format with one modified, one added and one
      deleted path is classified into exactly those three lists. */
  lemma PorcelainExample(p1: string, p2: string, p3: string)
    requires '\n' !in p1 && '\n' !in p2 && '\n' !in p3
    ensures Classify(" M " + p1 + "\n" + "A  " + p2 + "\n" + " D " + p3) == ChangeSet([p1], [p2], [p3], [])
  {
    var l1, l2, l3 := " M " + p1, "A  " + p2, " D " + p3;
    assert l1[1] == 'M' && l2[0] == 'A' && l3[1] == 'D';
    assert " M " + p1 + "\n" + "A  " + p2 + "\n" + " D " + p3 == l1 + "\n" + l2 + "\n" + l3;
    StatusLinesThree(l1, l2, l3);
    assert StatusCode(l1) == " M" && PathOf(l1) == p1;
    assert StatusCode(l2) == "A " && PathOf(l2) == p2;
    assert StatusCode(l3) == " D" && PathOf(l3) == p3;
    ClassifyOne(l1);
    ClassifyOne(l2);
    ClassifyOne(l3);
    ClassifyThree(l1, l2, l3);
  }

  /** A line that leaves out the second status column: the path is still read
      from offset 3, so `M file1` is classified as the modified path `ile1`. */
  lemma ShortStatusLosesFirstChar(path: string)
    requires path != [] && '\n' !in path
    ensures Classify("M " + path) == ChangeSet([path[1..]], [], [], [])
  {
    var line := "M " + path;
    assert line[0] == 'M';
    ClassifySingle(line);
    assert StatusCode(line) == "M ";
    assert PathOf(line) == path[1..];
    ClassifyOne(line);
  }

  // ------------------------------------------------------- commit suggestion

  /** `paths.some(f => f.includes(a) || f.includes(b))`. */
  function SomeMentions(paths: seq<string>, a: string, b: string): (r: bool)
    ensures r <==> exists k :: 0 <= k < |paths| && (Contains(paths[k], a) || Contains(paths[k], b))
  {
    if paths == [] then false
    else Contains(paths[0], a) || Contains(paths[0], b) || SomeMentions(paths[1..], a, b)
  }

  /** The suggested conventional-commit type, by a fixed priority: any added
      path makes it a feature; otherwise a modified path naming a fix or a bug
      makes it a fix; otherwise a modified path naming markdown or docs makes
      it documentation; otherwise it is a refactor. */
  function CommitType(c: ChangeSet): (t: string)
    ensures t == "feat" <==> c.added != []
    ensures t == "fix" <==> (c.added == [] &&
      exists k :: 0 <= k < |c.modified| && (Contains(c.modified[k], "fix") || Contains(c.modified[k], "bug")))
    ensures t == "docs" <==> (c.added == [] &&
      (forall k :: 0 <= k < |c.modified| ==> !Contains(c.modified[k], "fix") && !Contains(c.modified[k], "bug")) &&
      exists k :: 0 <= k < |c.modified| && (Contains(c.modified[k], ".md") || Contains(c.modified[k], "doc")))
    ensures t == "refactor" <==> (c.added == [] &&
      forall k :: 0 <= k < |c.modified| ==>
        !Contains(c.modified[k], "fix") && !Contains(c.modified[k], "bug") &&
        !Contains(c.modified[k], ".md") && !Contains(c.modified[k], "doc"))
  {
    if |c.added| > 0 then "feat"
    else if SomeMentions(c.modified, "fix", "bug") then "fix"
    else if SomeMentions(c.modified, ".md", "doc") then "docs"
    else "refactor"
  }

  /** The number of files the analysis reports; renamed paths are not counted. */
  function TotalFiles(c: ChangeSet): nat
  {
    |c.modified| + |c.added| + |c.deleted|
  }

  /** One clause of the description, present only for a non-empty category. */
  function Clause(verb: string, n: nat): string
  {
    if n > 0 then verb + " " + NatToString(n) + " archivos. " else ""
  }

  /** The description built with `+=`: one clause per non-empty category, in
      the order added, modified, deleted. */
  function Description(c: ChangeSet): string
  {
    Clause("Añadidos", |c.added|) + Clause("Modificados", |c.modified|) + Clause("Eliminados", |c.deleted|)
  }

  /** A clause starts with its verb and ends with a full stop and a space. */
  lemma ClauseShape(verb: string, n: nat)
    requires verb != [] && !IsWhitespace(verb[0])
    ensures Clause(verb, n) == "" <==> n == 0
    ensures n > 0 ==> Clause(verb, n)[0] == verb[0] && EndsWith(Clause(verb, n), ". ")
  {
  }

  /** The description is empty exactly when nothing was added, modified or
      deleted; otherwise it opens with the first non-empty category's verb and
      every clause, so the whole, ends with a full stop and a space. */
  lemma DescriptionShape(c: ChangeSet)
    ensures var d := Description(c);
            && (d == "" <==> c.added == [] && c.modified == [] && c.deleted == [])
            && (c.added != [] ==> StartsWith(d, Clause("Añadidos", |c.added|)))
            && (c.added == [] && c.modified != [] ==> StartsWith(d, Clause("Modificados", |c.modified|)))
            && (c.deleted != [] ==> EndsWith(d, Clause("Eliminados", |c.deleted|)))
            && (d != "" ==> EndsWith(d, ". ") && !IsWhitespace(d[0]))
  {
    var a, m, e := Clause("Añadidos", |c.added|), Clause("Modificados", |c.modified|), Clause("Eliminados", |c.deleted|);
    ClauseShape("Añadidos", |c.added|);
    ClauseShape("Modificados", |c.modified|);
    ClauseShape("Eliminados", |c.deleted|);
    assert Description(c) == a + m + e;
    ThreeClauses(a, m, e);
  }

  /** Three clauses, each empty or ending with ". " and not opening with
      whitespace, put one after the other. */
  lemma ThreeClauses(a: string, m: string, e: string)
    requires a != [] ==> EndsWith(a, ". ") && !IsWhitespace(a[0])
    requires m != [] ==> EndsWith(m, ". ") && !IsWhitespace(m[0])
    requires e != [] ==> EndsWith(e, ". ") && !IsWhitespace(e[0])
    ensures var d := a + m + e;
            && StartsWith(d, a)
            && (a == [] ==> StartsWith(d, m))
            && EndsWith(d, e)
            && (d != "" ==> EndsWith(d, ". ") && !IsWhitespace(d[0]))
  {
    var d := a + m + e;
    assert d[..|a|] == a;
    if a == [] { assert d == m + e; assert (m + e)[..|m|] == m; }
    assert d[|d| - |e|..] == e;
    if d != "" {
      if e != [] {
        assert d[|d| - 2..] == e[|e| - 2..];
      } else if m != [] {
        assert d == a + m;
        assert d[|d| - 2..] == m[|m| - 2..];
      } else {
        assert d == a;
      }
      if a != [] { assert d[0] == a[0]; }
      else if m != [] { assert d[0] == m[0]; }
      else { assert d[0] == e[0]; }
    }
  }

  /** The modified clause sits right after the added clause. */
  lemma ModifiedClauseInPlace(c: ChangeSet)
    ensures OccursAt(Description(c), Clause("Modificados", |c.modified|), |Clause("Añadidos", |c.added|)|)
  {
    var a, m, e := Clause("Añadidos", |c.added|), Clause("Modificados", |c.modified|), Clause("Eliminados", |c.deleted|);
    var d := a + m + e;
    assert Description(c) == d;
    assert d[|a|..|a| + |m|] == m;
  }

  /** Trimming a sentence that ends with a full stop and a space drops only that space. */
  lemma TrimDropsFinalSpace(d: string)
    requires EndsWith(d, ". ") && !IsWhitespace(d[0])
    ensures Trim(d) == d[..|d| - 1]
  {
    var e := d[..|d| - 1];
    assert e[|e| - 1] == '.';
    assert TrimStart(d) == d;
    assert d == e + [' '];
    assert TrimEnd(d) == TrimEnd(e);
    TrimSolid(e);
  }

  /** The logged description, `description.trim()`, is the description without
      its final space. */
  lemma TrimmedDescription(c: ChangeSet)
    ensures var d := Description(c);
            Trim(d) == if d == "" then "" else d[..|d| - 1]
  {
    DescriptionShape(c);
    var d := Description(c);
    if d != "" {
      TrimDropsFinalSpace(d);
    }
  }

  /** The entry `document_changes` appends to the session log. */
  function ChangesLogEntry(c: ChangeSet, gitDiff: string, timestamp: string): LogEntry
  {
    LogEntry(Some(timestamp), None, Some("document_changes"), Some(c),
             Some(CommitSuggestion(CommitType(c), Trim(Description(c)))), Some(gitDiff), Some(TotalFiles(c)))
  }

  /** The text report of `document_changes`; unlike the log it shows the
      description untrimmed. */
  function ChangesReport(c: ChangeSet, gitDiff: string): string
  {
    "📋 Análisis de cambios completado:\n\n**Tipo de commit sugerido**: " + CommitType(c)
    + "\n**Descripción**: " + Description(c)
    + "\n\n**Archivos modificados**: " + NatToString(|c.modified|)
    + "\n**Archivos añadidos**: " + NatToString(|c.added|)
    + "\n**Archivos eliminados**: " + NatToString(|c.deleted|)
    + "\n\n**Git diff estadísticas**:\n" + gitDiff
    + "\n\n✅ Detalles guardados en session-log.jsonl"
  }
}
