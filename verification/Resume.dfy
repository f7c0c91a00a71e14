/**
  The `smart_resume` tool: a short briefing put together from the files git
  reports as modified or untracked, the tail of the session log, and the
  TODO/FIXME lines of the first few of those files.
 */
module Resume {
  import opened Wrappers
  import opened Text
  import opened SessionLog
  import Changes

  /** A TODO or FIXME line found in a file: its path, its 1-based line number
      and its trimmed text. */
  datatype Todo = Todo(file: string, line: nat, content: string)

  // ------------------------------------------------------------ sources

  /** The paths of `git ls-files -m -o --exclude-standard`: its non-blank lines,
      at most five of them, in git's order. */
  function ModifiedFiles(lsOutput: string): (files: seq<string>)
    ensures |files| == Min(5, |NonBlank(Lines(lsOutput))|)
    ensures files == NonBlank(Lines(lsOutput))[..|files|]
    ensures forall k :: 0 <= k < |files| ==> !IsBlank(files[k])
  {
    NonBlankKeepsNonBlank(Lines(lsOutput));
    Take(NonBlank(Lines(lsOutput)), 5)
  }

  /** Every line of the tail parsed as JSON. */
  predicate AllParsed(lines: seq<Option<LogEntry>>)
  {
    forall k :: 0 <= k < |lines| ==> lines[k].Some?
  }

  function Parsed(lines: seq<Option<LogEntry>>): (entries: seq<LogEntry>)
    requires AllParsed(lines)
    ensures |entries| == |lines|
    ensures forall k :: 0 <= k < |lines| ==> lines[k] == Some(entries[k])
  {
    seq(|lines|, k requires 0 <= k < |lines| => lines[k].value)
  }

  /** The last five log lines, parsed. `log` is None when the log cannot be
      read; a line that is not valid JSON is None, and then the whole read
      fails and no session is known. */
  function RecentSessions(log: Option<seq<Option<LogEntry>>>): (sessions: seq<LogEntry>)
    ensures |sessions| <= 5
  {
    match log
    case None => []
    case Some(lines) =>
      var tail := TakeLast(lines, 5);
      if AllParsed(tail) then Parsed(tail) else []
  }

  /** Without a readable log, or when one of its last five lines is not valid
      JSON, no session is known; otherwise the sessions are the last five log
      entries in log order, so the newest session is the log's last line. */
  lemma RecentSessionsAreTheTail(log: Option<seq<Option<LogEntry>>>)
    ensures log.None? ==> RecentSessions(log) == []
    ensures log.Some? && !AllParsed(TakeLast(log.value, 5)) ==> RecentSessions(log) == []
    ensures log.Some? && AllParsed(TakeLast(log.value, 5)) ==>
      var lines, sessions := log.value, RecentSessions(log);
      && |sessions| == Min(5, |lines|)
      && (forall k :: 0 <= k < |sessions| ==> lines[|lines| - |sessions| + k] == Some(sessions[k]))
      && (lines != [] ==> lines[|lines| - 1] == Some(sessions[|sessions| - 1]))
  {
    if log.Some? && AllParsed(TakeLast(log.value, 5)) {
      var lines := log.value;
      var tail := TakeLast(lines, 5);
      var sessions := Parsed(tail);
      assert RecentSessions(log) == sessions;
      forall k | 0 <= k < |sessions| ensures lines[|lines| - |sessions| + k] == Some(sessions[k]) {
        assert tail[k] == lines[|lines| - |sessions| + k];
      }
    }
  }

  // ---------------------------------------------------------- TODO scan

  /** `line.includes('TODO') || line.includes('FIXME')`. */
  predicate HasMarker(line: string)
  {
    Contains(line, "TODO") || Contains(line, "FIXME")
  }

  /** The TODOs among `lines`, numbered by their position from 1. */
  function LineTodos(file: string, lines: seq<string>): (todos: seq<Todo>)
    ensures |todos| <= |lines|
  {
    if lines == [] then []
    else
      var k := |lines| - 1;
      LineTodos(file, lines[..k]) + (if HasMarker(lines[k]) then [Todo(file, k + 1, Trim(lines[k]))] else [])
  }

  /** The TODOs of one file; a file that cannot be read (absent from
      `contents`) contributes none. */
  function FileTodos(file: string, contents: map<string, string>): seq<Todo>
  {
    if file in contents then LineTodos(file, Lines(contents[file])) else []
  }

  /** The TODOs of several files, file after file. */
  function TodosIn(files: seq<string>, contents: map<string, string>): seq<Todo>
  {
    if files == [] then []
    else TodosIn(files[..|files| - 1], contents) + FileTodos(files[|files| - 1], contents)
  }

  /** The TODOs of two lists of files are those of the first list followed by
      those of the second. */
  lemma {:induction false} TodosInAppend(a: seq<string>, b: seq<string>, contents: map<string, string>)
    ensures TodosIn(a + b, contents) == TodosIn(a, contents) + TodosIn(b, contents)
    decreases |b|
  {
    if b == [] {
      assert a + b == a;
    } else {
      var front, last := b[..|b| - 1], b[|b| - 1];
      calc {
        TodosIn(a + b, contents);
        == { assert a + b == (a + front) + [last]; TodosInSnoc(a + front, last, contents); }
        TodosIn(a + front, contents) + FileTodos(last, contents);
        == { TodosInAppend(a, front, contents); }
        TodosIn(a, contents) + TodosIn(front, contents) + FileTodos(last, contents);
        == { assert b == front + [last]; TodosInSnoc(front, last, contents); }
        TodosIn(a, contents) + TodosIn(b, contents);
      }
    }
  }

  /** One more file adds its TODOs at the end. */
  lemma TodosInSnoc(files: seq<string>, file: string, contents: map<string, string>)
    ensures TodosIn(files + [file], contents) == TodosIn(files, contents) + FileTodos(file, contents)
  {
    assert (files + [file])[..|files|] == files;
  }

  /** The TODOs of a single file are that file's. */
  lemma TodosInOne(file: string, contents: map<string, string>)
    ensures TodosIn([file], contents) == FileTodos(file, contents)
  {
    assert [file][..0] == [];
  }

  /** The TODOs of files[i] form one block, between those of the files
      before it and those of the files after it. */
  lemma FileBlock(files: seq<string>, contents: map<string, string>, i: nat)
    requires i < |files|
    ensures TodosIn(files, contents)
      == TodosIn(files[..i], contents) + FileTodos(files[i], contents) + TodosIn(files[i + 1..], contents)
  {
    var rest := [files[i]] + files[i + 1..];
    assert files == files[..i] + rest;
    TodosInAppend(files[..i], rest, contents);
    TodosInAppend([files[i]], files[i + 1..], contents);
    TodosInOne(files[i], contents);
  }

  /** File order: when i < j, the block of files[i] comes before the block of
      files[j], with the blocks of the files before, between and after them
      in their places. */
  lemma FileBlocksInOrder(files: seq<string>, contents: map<string, string>, i: nat, j: nat)
    requires i < j < |files|
    ensures TodosIn(files, contents)
      == TodosIn(files[..i], contents) + FileTodos(files[i], contents)
       + TodosIn(files[i + 1..j], contents) + FileTodos(files[j], contents)
       + TodosIn(files[j + 1..], contents)
  {
    var front := files[..j];
    FileBlock(files, contents, j);
    FileBlock(front, contents, i);
    assert front[..i] == files[..i] && front[i] == files[i] && front[i + 1..] == files[i + 1..j];
  }

  /** The scan of the first three files lists the TODOs of an earlier file
      before those of a later one. */
  lemma ScannedFilesInOrder(files: seq<string>, contents: map<string, string>, i: nat, j: nat)
    requires i < j < Min(3, |files|)
    ensures var scanned := Take(files, 3);
      TodosIn(scanned, contents)
        == TodosIn(scanned[..i], contents) + FileTodos(files[i], contents)
         + TodosIn(scanned[i + 1..j], contents) + FileTodos(files[j], contents)
         + TodosIn(scanned[j + 1..], contents)
  {
    FileBlocksInOrder(Take(files, 3), contents, i, j);
  }

  /** The inner loop over the lines of one file: every line holding `TODO` or
      `FIXME` is recorded with its 1-based number and its trimmed text. */
  method ScanLines(file: string, lines: seq<string>) returns (found: seq<Todo>)
    ensures found == LineTodos(file, lines)
  {
    found := [];
    var idx := 0;
    while idx < |lines|
      invariant 0 <= idx <= |lines|
      invariant found == LineTodos(file, lines[..idx])
    {
      var line := lines[idx];
      if Contains(line, "TODO") || Contains(line, "FIXME") {
        found := found + [Todo(file, idx + 1, Trim(line))];
      }
      assert lines[..idx + 1][..idx] == lines[..idx];
      idx := idx + 1;
    }
    assert lines[..idx] == lines;
  }

  /** The outer loop over the first three files; a file that cannot be read is
      skipped. */
  method ScanTodos(files: seq<string>, contents: map<string, string>) returns (todos: seq<Todo>)
    ensures todos == TodosIn(Take(files, 3), contents)
  {
    var scanned := Take(files, 3);
    todos := [];
    var i := 0;
    while i < |scanned|
      invariant 0 <= i <= |scanned|
      invariant todos == TodosIn(scanned[..i], contents)
    {
      var file := scanned[i];
      if file in contents {
        var found := ScanLines(file, Lines(contents[file]));
        todos := todos + found;
      }
      assert scanned[..i + 1][..i] == scanned[..i];
      i := i + 1;
    }
    assert scanned[..i] == scanned;
  }

  /** A marker survives trimming, since neither word has whitespace at its ends. */
  lemma MarkerSurvivesTrim(line: string)
    requires HasMarker(line)
    ensures HasMarker(Trim(line))
  {
    if Contains(line, "TODO") {
      var i :| 0 <= i <= |line| - 4 && OccursAt(line, "TODO", i);
      TrimKeepsWord(line, "TODO", i);
    } else {
      var i :| 0 <= i <= |line| - 5 && OccursAt(line, "FIXME", i);
      TrimKeepsWord(line, "FIXME", i);
    }
  }

  lemma {:induction false} LineTodosSound(file: string, lines: seq<string>, t: Todo)
    requires t in LineTodos(file, lines)
    ensures t.file == file && 1 <= t.line <= |lines|
    ensures t.content == Trim(lines[t.line - 1]) && HasMarker(lines[t.line - 1])
  {
    var k := |lines| - 1;
    if t in LineTodos(file, lines[..k]) {
      LineTodosSound(file, lines[..k], t);
      assert lines[..k][t.line - 1] == lines[t.line - 1];
    }
  }

  lemma {:induction false} LineTodosComplete(file: string, lines: seq<string>, k: nat)
    requires k < |lines| && HasMarker(lines[k])
    ensures Todo(file, k + 1, Trim(lines[k])) in LineTodos(file, lines)
  {
    var n := |lines| - 1;
    if k < n {
      LineTodosComplete(file, lines[..n], k);
      assert lines[..n][k] == lines[k];
    }
  }

  /** Line numbers strictly increase along the sequence. */
  predicate Ascending(todos: seq<Todo>)
  {
    forall i, j :: 0 <= i < j < |todos| ==> todos[i].line < todos[j].line
  }

  /** Within one file the TODOs come in strictly increasing line order. */
  lemma {:induction false} LineTodosOrdered(file: string, lines: seq<string>)
    ensures Ascending(LineTodos(file, lines))
  {
    if lines != [] {
      var k := |lines| - 1;
      var init := LineTodos(file, lines[..k]);
      LineTodosOrdered(file, lines[..k]);
      var todos := LineTodos(file, lines);
      forall i, j | 0 <= i < j < |todos| ensures todos[i].line < todos[j].line {
        assert todos[i] == init[i];
        if j >= |init| {
          assert todos[j].line == k + 1;
          assert init[i] in init;
          LineTodosSound(file, lines[..k], init[i]);
        } else {
          assert todos[j] == init[j];
          assert init[i].line < init[j].line;
        }
      }
    }
  }

  /** Every recorded TODO names one of the scanned, readable files, a line
      number between 1 and that file's number of lines, and that line's
      trimmed text, which still holds `TODO` or `FIXME`. */
  lemma {:induction false} TodosSound(files: seq<string>, contents: map<string, string>, t: Todo)
    requires t in TodosIn(files, contents)
    ensures t.file in files && t.file in contents
    ensures var lines := Lines(contents[t.file]);
            && 1 <= t.line <= |lines|
            && t.content == Trim(lines[t.line - 1])
            && HasMarker(lines[t.line - 1])
            && HasMarker(t.content)
  {
    var n := |files| - 1;
    if t in TodosIn(files[..n], contents) {
      TodosSound(files[..n], contents, t);
    } else {
      LineTodosSound(files[n], Lines(contents[files[n]]), t);
      MarkerSurvivesTrim(Lines(contents[t.file])[t.line - 1]);
    }
  }

  /** The TODOs of each scanned file appear among those of all files. */
  lemma {:induction false} FileTodosIncluded(files: seq<string>, contents: map<string, string>, i: nat, t: Todo)
    requires i < |files| && t in FileTodos(files[i], contents)
    ensures t in TodosIn(files, contents)
  {
    var n := |files| - 1;
    assert TodosIn(files, contents) == TodosIn(files[..n], contents) + FileTodos(files[n], contents);
    if i < n {
      assert files[..n][i] == files[i];
      FileTodosIncluded(files[..n], contents, i, t);
    }
  }

  /** Every TODO or FIXME line of a scanned, readable file is recorded. */
  lemma TodosComplete(files: seq<string>, contents: map<string, string>, i: nat, k: nat)
    requires i < |files| && files[i] in contents
    requires k < |Lines(contents[files[i]])| && HasMarker(Lines(contents[files[i]])[k])
    ensures Todo(files[i], k + 1, Trim(Lines(contents[files[i]])[k])) in TodosIn(files, contents)
  {
    LineTodosComplete(files[i], Lines(contents[files[i]]), k);
    FileTodosIncluded(files, contents, i, Todo(files[i], k + 1, Trim(Lines(contents[files[i]])[k])));
  }

  // ------------------------------------------------------------ briefing

  /** What the briefing tells: when the last session was, the file worked on,
      the pending task, the suggested next step, and the files and TODOs it
      lists. */
  datatype Briefing = Briefing(
    lastDate: string,
    lastFile: string,
    lastTask: string,
    nextStep: string,
    files: seq<string>,
    todos: seq<Todo>)

  /** The newest known session: the last of the recent sessions. */
  function LastSession(sessions: seq<LogEntry>): Option<LogEntry>
  {
    if sessions == [] then None else Some(sessions[|sessions| - 1])
  }

  /** `lastSession.changes?.modified?.[0]` when it is a non-empty path. */
  function FirstModified(e: LogEntry): Option<string>
  {
    if e.changes.Some? && e.changes.value.modified != [] && e.changes.value.modified[0] != ""
    then Some(e.changes.value.modified[0])
    else None
  }

  /** The briefing's fields. `localeDate` is the locale rendering of the
      newest session's timestamp, which only matters when there is one. */
  function Brief(files: seq<string>, sessions: seq<LogEntry>, todos: seq<Todo>, localeDate: string): Briefing
  {
    var last := LastSession(sessions);
    var lastDate := if last.Some? then localeDate else "Hoy";
    var lastTask := if last.Some? && Truthy(last.value.resumen) then last.value.resumen.value else "Sesión inicial";
    var lastFile :=
      if last.Some? && FirstModified(last.value).Some? then FirstModified(last.value).value
      else if files != [] && files[0] != "" then files[0]
      else "ninguno";
    var nextStep :=
      if |todos| > 0 then "Resolver " + NatToString(|todos|) + " TODOs pendientes"
      else if last.Some? && last.value.commitSuggestion.Some? then "Hacer commit: " + last.value.commitSuggestion.value.kind
      else if |files| > 0 then "Continuar con " + lastFile
      else "Revisar archivos modificados";
    Briefing(lastDate, lastFile, lastTask, nextStep, files, todos)
  }

  /** A bullet for a modified file. */
  function FileBullet(f: string): string
  {
    "• " + f
  }

  /** A bullet for a TODO: place, then at most 50 characters of its text. */
  function TodoBullet(t: Todo): string
  {
    "• " + t.file + ":" + NatToString(t.line) + " - " + Take(t.content, 50) + "..."
  }

  /** The bullets for the first three files. */
  function FileBullets(files: seq<string>): (bullets: seq<string>)
    ensures |bullets| == Min(3, |files|)
    ensures forall k :: 0 <= k < |bullets| ==> bullets[k] == FileBullet(files[k])
  {
    seq(Min(3, |files|), k requires 0 <= k < Min(3, |files|) => FileBullet(files[k]))
  }

  /** The bullets for the first two TODOs. */
  function TodoBullets(todos: seq<Todo>): (bullets: seq<string>)
    ensures |bullets| == Min(2, |todos|)
    ensures forall k :: 0 <= k < |bullets| ==> bullets[k] == TodoBullet(todos[k])
  {
    seq(Min(2, |todos|), k requires 0 <= k < Min(2, |todos|) => TodoBullet(todos[k]))
  }

  /** The closing section: the TODO count and bullets, or the all-clear. */
  function TodoSection(todos: seq<Todo>): string
  {
    if |todos| > 0
    then "🚧 **TODOs encontrados**: " + NatToString(|todos|) + "\n" + Join(TodoBullets(todos), "\n")
    else "✅ Sin TODOs pendientes"
  }

  /** The eight lines of the briefing before the file bullets. */
  function HeadLines(b: Briefing): seq<string>
  {
    ["🔄 **SMART RESUME**", "", "**Última sesión**: " + b.lastDate, "**Trabajaste en**: " + b.lastFile,
     "**Quedó pendiente**: " + b.lastTask, "**Sugerencia**: " + b.nextStep, "",
     "📁 **Archivos modificados**: " + NatToString(|b.files|)]
  }

  /** The rest of the briefing: the file bullets, a blank line, the TODO
      section. */
  function Body(b: Briefing): string
  {
    Join(FileBullets(b.files), "\n") + "\n\n" + TodoSection(b.todos)
  }

  /** The briefing text. */
  function Render(b: Briefing): string
  {
    Join(HeadLines(b), "\n") + "\n" + Body(b)
  }

  /** The whole `smart_resume` reply, from the outputs of git, the session
      log and the contents of the files that can be read. */
  function SmartResume(lsOutput: string, log: Option<seq<Option<LogEntry>>>,
                       contents: map<string, string>, localeDate: string): string
  {
    var files := ModifiedFiles(lsOutput);
    Render(Brief(files, RecentSessions(log), TodosIn(Take(files, 3), contents), localeDate))
  }

  /** The handler as a program: the TODO scan runs as loops. */
  method ResumeBriefing(lsOutput: string, log: Option<seq<Option<LogEntry>>>,
                        contents: map<string, string>, localeDate: string) returns (text: string)
    ensures text == SmartResume(lsOutput, log, contents, localeDate)
  {
    var files := ModifiedFiles(lsOutput);
    var todos := ScanTodos(files, contents);
    text := Render(Brief(files, RecentSessions(log), todos, localeDate));
  }

  // ------------------------------------------------------ what it promises

  /** The lines of the closing section. */
  function TodoLines(todos: seq<Todo>): seq<string>
  {
    if |todos| > 0 then ["🚧 **TODOs encontrados**: " + NatToString(|todos|)] + TodoBullets(todos)
    else ["✅ Sin TODOs pendientes"]
  }

  /** The lines after the head: with no file to list, the join of no bullets
      leaves one more blank line. */
  function BodyLines(b: Briefing): seq<string>
  {
    var bullets := FileBullets(b.files);
    (if bullets == [] then [""] else bullets) + [""] + TodoLines(b.todos)
  }

  /** No field of the briefing spans more than one line. */
  predicate SingleLineFields(b: Briefing)
  {
    && '\n' !in b.lastDate && '\n' !in b.lastFile && '\n' !in b.lastTask && '\n' !in b.nextStep
    && (forall k :: 0 <= k < |b.files| ==> '\n' !in b.files[k])
    && (forall k :: 0 <= k < |b.todos| ==> '\n' !in b.todos[k].file && '\n' !in b.todos[k].content)
  }

  /** A rendered number is one line. Stated on its own so that the lemmas
      about the bullets below need not unfold the rendering. */
  lemma NumberOnOneLine(n: nat)
    ensures '\n' !in NatToString(n)
  {
  }

  /** A TODO bullet is one line. */
  lemma TodoBulletOneLine(t: Todo)
    requires '\n' !in t.file && '\n' !in t.content
    ensures '\n' !in TodoBullet(t)
  {
    NumberOnOneLine(t.line);
  }

  lemma TodoHeadingOneLine(n: nat)
    ensures '\n' !in "🚧 **TODOs encontrados**: " + NatToString(n)
  {
    NumberOnOneLine(n);
  }

  lemma AllClearLine()
    ensures Lines("✅ Sin TODOs pendientes") == ["✅ Sin TODOs pendientes"]
  {
    LinesSingle("✅ Sin TODOs pendientes");
  }

  /** The closing section splits into its heading and bullets. */
  lemma TodoSectionLines(todos: seq<Todo>)
    requires forall k :: 0 <= k < |todos| ==> '\n' !in todos[k].file && '\n' !in todos[k].content
    ensures Lines(TodoSection(todos)) == TodoLines(todos)
  {
    if |todos| > 0 {
      var bullets := TodoBullets(todos);
      forall k | 0 <= k < |bullets| ensures '\n' !in bullets[k] {
        TodoBulletOneLine(todos[k]);
      }
      TodoHeadingOneLine(|todos|);
      HeadingThenLines("🚧 **TODOs encontrados**: " + NatToString(|todos|), bullets);
    } else {
      AllClearLine();
    }
  }

  /** Everything after the count of modified files splits into the file
      bullets, a blank line and the closing section. */
  lemma BodyReadsBack(b: Briefing)
    requires SingleLineFields(b)
    ensures Lines(Body(b)) == BodyLines(b)
  {
    var bullets := FileBullets(b.files);
    TodoSectionLines(b.todos);
    forall k | 0 <= k < |bullets| ensures '\n' !in bullets[k] {
      assert bullets[k] == "• " + b.files[k];
    }
    BulletsThenSection(bullets, TodoSection(b.todos));
  }

  /** Lines joined, a blank line and a closing text split back into the
      lines, the blank line and the lines of the closing text; no lines at
      all read back as one empty line. */
  lemma BulletsThenSection(bullets: seq<string>, t: string)
    requires forall k :: 0 <= k < |bullets| ==> '\n' !in bullets[k]
    ensures Lines(Join(bullets, "\n") + "\n\n" + t) == (if bullets == [] then [""] else bullets) + [""] + Lines(t)
  {
    LinesCons("", t);
    assert "" + "\n" + t == "\n" + t;
    if bullets == [] {
      assert Join(bullets, "\n") + "\n\n" + t == "" + "\n" + ("\n" + t);
      LinesCons("", "\n" + t);
    } else {
      assert Join(bullets, "\n") + "\n\n" + t == Join(bullets, "\n") + "\n" + ("\n" + t);
      LinesJoinThen(bullets, "\n" + t);
    }
  }

  lemma HeadLinesOneLine(b: Briefing)
    requires SingleLineFields(b)
    ensures forall k :: 0 <= k < |HeadLines(b)| ==> '\n' !in HeadLines(b)[k]
  {
    NumberOnOneLine(|b.files|);
  }

  /** Splitting the briefing text at line feeds gives back its lines, so each
      field can be read back from its own line. */
  lemma BriefingReadsBack(b: Briefing)
    requires SingleLineFields(b)
    ensures Lines(Render(b)) == HeadLines(b) + BodyLines(b)
  {
    HeadLinesOneLine(b);
    LinesJoinThen(HeadLines(b), Body(b));
    BodyReadsBack(b);
  }

  // ------------------------------------- the briefing after other tools ran

  /** Once an entry is appended to a log whose last four lines parse, the
      entry is the newest known session. */
  lemma NewestIsAppended(log: Option<seq<Option<LogEntry>>>, e: LogEntry)
    requires AllParsed(TakeLast(LogLines(log), 4))
    ensures LastSession(RecentSessions(Appended(log, e))) == Some(e)
  {
    var after := Appended(log, e);
    var lines := after.value;
    assert lines == LogLines(log) + [Some(e)];
    var tail := TakeLast(lines, 5);
    assert tail == TakeLast(LogLines(log), 4) + [Some(e)];
    RecentSessionsAreTheTail(after);
  }

  /** With no readable log the briefing falls back to its defaults: today,
      the initial session, the first modified file or none. */
  lemma FreshStart(files: seq<string>, todos: seq<Todo>, localeDate: string)
    requires forall k :: 0 <= k < |files| ==> files[k] != ""
    ensures var b := Brief(files, RecentSessions(None), todos, localeDate);
      && b.lastDate == "Hoy"
      && b.lastTask == "Sesión inicial"
      && b.lastFile == (if files == [] then "ninguno" else files[0])
      && (todos == [] ==> b.nextStep == (if files == [] then "Revisar archivos modificados" else "Continuar con " + files[0]))
  {
    RecentSessionsAreTheTail(None);
  }

  /** Pending TODOs outrank every other suggestion. */
  lemma TodosComeFirst(files: seq<string>, sessions: seq<LogEntry>, todos: seq<Todo>, localeDate: string)
    requires todos != []
    ensures Brief(files, sessions, todos, localeDate).nextStep == "Resolver " + NatToString(|todos|) + " TODOs pendientes"
  {
  }

  /** After `guardar_progreso` saved a non-empty summary, the next briefing
      names it as the pending task, dated by that save. */
  lemma ResumeAfterSave(log: Option<seq<Option<LogEntry>>>, timestamp: string, resumen: string,
                        files: seq<string>, todos: seq<Todo>, localeDate: string)
    requires resumen != ""
    requires AllParsed(TakeLast(LogLines(log), 4))
    ensures var b := Brief(files, RecentSessions(Appended(log, ProgressEntry(timestamp, Some(resumen)))), todos, localeDate);
      && b.lastTask == resumen
      && b.lastDate == localeDate
      && (files != [] && files[0] != "" ==> b.lastFile == files[0])
  {
    NewestIsAppended(log, ProgressEntry(timestamp, Some(resumen)));
  }

  /** After `document_changes` logged an analysis, and with no TODO pending,
      the next briefing suggests committing with the type it proposed and
      names the first modified path as the file worked on. */
  lemma ResumeAfterDocumentChanges(log: Option<seq<Option<LogEntry>>>, c: ChangeSet, gitDiff: string,
                                   timestamp: string, files: seq<string>, localeDate: string)
    requires AllParsed(TakeLast(LogLines(log), 4))
    ensures var b := Brief(files, RecentSessions(Appended(log, Changes.ChangesLogEntry(c, gitDiff, timestamp))), [], localeDate);
      && b.nextStep == "Hacer commit: " + Changes.CommitType(c)
      && (c.modified != [] && c.modified[0] != "" ==> b.lastFile == c.modified[0])
      && b.lastTask == "Sesión inicial"
  {
    NewestIsAppended(log, Changes.ChangesLogEntry(c, gitDiff, timestamp));
  }
}
