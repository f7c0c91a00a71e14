/**
  Records of `.claude/session-log.jsonl`, one JSON object per line. The log
  is modelled as the lines of its trimmed text, each parsed (None when the
  line is not valid JSON), or None when the file cannot be read; an empty log
  is the empty sequence. No schema is enforced: every field a handler may
  look at is optional. Whether the text ends inside its last line is kept
  beside the lines, since it decides where the next append lands.
 */
module SessionLog {
  import opened Wrappers

  /** The four path lists `document_changes` derives from `git status --porcelain`. */
  datatype ChangeSet = ChangeSet(
    modified: seq<string>,
    added: seq<string>,
    deleted: seq<string>,
    renamed: seq<string>)

  /** The `commitSuggestion` object: a conventional-commit type and a sentence. */
  datatype CommitSuggestion = CommitSuggestion(kind: string, description: string)

  /** One log line. Progress saves carry `resumen`; change analyses carry
      `action`, `changes`, `commitSuggestion`, `gitDiff` and `totalFiles`. */
  datatype LogEntry = LogEntry(
    timestamp: Option<string>,
    resumen: Option<string>,
    action: Option<string>,
    changes: Option<ChangeSet>,
    commitSuggestion: Option<CommitSuggestion>,
    gitDiff: Option<string>,
    totalFiles: Option<nat>)

  /** The entry `guardar_progreso` appends; `JSON.stringify` drops an
      undefined `resumen`, so a missing summary leaves the field out. */
  function ProgressEntry(timestamp: string, resumen: Option<string>): (e: LogEntry)
    ensures e.resumen == resumen && e.changes.None? && e.commitSuggestion.None?
  {
    LogEntry(Some(timestamp), resumen, None, None, None, None, None)
  }

  /** The log after `appendFile` of one more JSON line and its line feed,
      on a log whose text ends with a line feed (or that does not exist yet,
      which the append creates). On a log ending inside its last line the
      entry is swallowed instead: see `Write`. */
  function Appended(log: Option<seq<Option<LogEntry>>>, e: LogEntry): (after: Option<seq<Option<LogEntry>>>)
    ensures after.Some? && after.value != [] && after.value[|after.value| - 1] == Some(e)
    ensures log.Some? ==> after.value[..|after.value| - 1] == log.value
  {
    match log
    case None => Some([Some(e)])
    case Some(lines) => Some(lines + [Some(e)])
  }

  /** The log file. `lines` is None when the file cannot be read. `open` says
      that its text does not end with a line feed, so that the next append
      continues the last line instead of starting a new one. */
  datatype LogFile = LogFile(lines: Option<seq<Option<LogEntry>>>, open: bool)

  /** The lines of a log, readable or not. */
  function LogLines(log: Option<seq<Option<LogEntry>>>): seq<Option<LogEntry>>
  {
    if log.Some? then log.value else []
  }

  /** The next append continues the last line. */
  predicate Continues(log: LogFile)
  {
    log.open && LogLines(log.lines) != []
  }

  /** The lines no later append can change: all of them, or all but the last
      when the text ends inside it. */
  function Settled(log: LogFile): (settled: seq<Option<LogEntry>>)
    ensures |settled| == |LogLines(log.lines)| - (if Continues(log) then 1 else 0)
    ensures settled == LogLines(log.lines)[..|settled|]
  {
    var lines := LogLines(log.lines);
    if Continues(log) then lines[..|lines| - 1] else lines
  }

  /** One line was written at the end of the log: the settled lines are kept
      and exactly one line follows them. */
  predicate WroteOneLine(after: LogFile, before: LogFile)
  {
    && after.lines.Some?
    && |after.lines.value| == |Settled(before)| + 1
    && after.lines.value[..|Settled(before)|] == Settled(before)
  }

  /** `appendFile` of the text of one line: `line` is the entry it parses to,
      or None when it is not valid JSON; `terminated` says that it ends with a
      line feed. An append creates a log that does not exist. When the text
      ended inside its last line, the new text continues that line, and a
      JSON object written after other text is not valid JSON: the line then
      parses to nothing. */
  function Write(log: LogFile, line: Option<LogEntry>, terminated: bool): (after: LogFile)
    ensures after.open == !terminated
    ensures after.lines.Some? && after.lines.value != [] && WroteOneLine(after, log)
    ensures after.lines.value[|after.lines.value| - 1] == (if Continues(log) then None else line)
  {
    LogFile(Some(Settled(log) + [if Continues(log) then None else line]), !terminated)
  }

  /** On a log that ends with a line feed, writing an entry appends it. */
  lemma WriteClosed(log: LogFile, e: LogEntry, terminated: bool)
    requires !log.open
    ensures Write(log, Some(e), terminated).lines == Appended(log.lines, e)
  {
  }

  /** On a log that ends inside its last line, the entry written is lost: the
      log keeps its number of lines and its last line no longer parses. */
  lemma WriteSwallowed(log: LogFile, e: LogEntry, terminated: bool)
    requires log.open && LogLines(log.lines) != []
    ensures var before, after := LogLines(log.lines), Write(log, Some(e), terminated).lines.value;
      && |after| == |before|
      && after[..|before| - 1] == before[..|before| - 1]
      && after[|after| - 1] == None
  {
  }

  /** JavaScript truthiness of an optional string field: present and non-empty. */
  predicate Truthy(s: Option<string>)
  {
    s.Some? && s.value != ""
  }
}
