# Context-control MCP server: a Dafny model of its core

The server is a small Model Context Protocol server. It answers `tools/call`
requests for ten tools that help a developer resume and record work on a
project. The source is `context-control-server.js`. This project models
the parts of it that compute something:

- **Dispatcher** (`Dispatcher.dfy`): routes a tool name to its handler. An
  unknown name and every error a handler throws become a reply
  `Error: <message>`. Every reply holds exactly one text item. The outside
  world of a call is the input `World`:
  - the meta-context file and whether writing it fails;
  - the session log and whether appending to it fails;
  - the output of the three git commands;
  - the readable files;
  - the roadmap file;
  - the timestamp and the locale dates;
  - the message thrown while the hooks are written, if any;
  - the dashboard `metrics_dashboard` renders.
- **document_changes** (`Changes.dfy`): classifies the lines of
  `git status --porcelain` into modified, added, deleted and renamed
  paths (`ClassifyStatus` runs the loop). It then derives the suggested
  commit type and the description, builds the log entry and renders the
  report.
- **smart_resume** (`Resume.dfy`): reads the modified files, the last five
  log entries and the TODO/FIXME lines of the first three files
  (`ScanTodos` and `ScanLines` run the nested loops). From these it picks
  the last date, the file, the task and the suggested next step, and
  renders the briefing.
- **roadmap_status** (`Roadmap.dfy`): the global progress, the three phase
  counts (with the `/g` semantics of `match`), the current phase, the next
  milestone, the estimated weeks and the report.
- **Meta-context update** (`MetaContext.dfy`): the `replace` that rewrites
  the first "Próximas Prioridades" section.
- **Session log** (`SessionLog.dfy`): the entries the tools append, and
  whether the text of the log ends inside its last line.
- **Text** (`Text.dfy`): the string operations the handlers use, with
  JavaScript's semantics: `split('\n')`, `join`, `trim`, `includes`,
  `indexOf` and decimal rendering.

Behaviours the model pins down:

- A status line is `XY path`. Its code is the first two characters and its
  path starts at index 3. A line such as `M file1`, whose code is only one
  character, therefore loses the first character of its path
  (`Changes.ShortStatusLosesFirstChar`).
- The log entry stores the trimmed description. The report shows it
  untrimmed, with its final space.
- `smart_resume` keeps no session when any of the last five log lines fails
  to parse. The whole `map` runs inside one `try`.
- `setup_hooks` ends its record with a backslash and an `n`, not a line
  feed. That line is not valid JSON, and the next entry is written onto
  the same line, which is then not valid JSON either. Until five more lines
  have been written after that line, `smart_resume` knows no session
  (`Dispatcher.SetupHidesSessions`). A summary that `guardar_progreso` saves
  right after `setup_hooks` is lost to it (`Dispatcher.SaveAfterSetupIsLost`).
- `roadmap_status` reports an unreadable roadmap in its own text
  (`❌ Error leyendo roadmap: …`), not as an `Error:` reply. It leaves the
  meta-context alone when that file cannot be read or written.

## Model

| member | source | states |
|---|---|---|
| Text.IndexFrom | context-control-server.js:605-609 | `indexOf`: the result is an occurrence, with none before it from the start index; None means there is no occurrence at all |
| Text.ContainsIffFound | context-control-server.js:605-609 | `includes` holds exactly when `indexOf` finds something |
| Text.IndexIsFirst | context-control-server.js:659-660 | an occurrence with none before it is the one `indexOf` returns |
| Text.TrimStart | context-control-server.js:208 | the result is a suffix; everything dropped is whitespace; the result does not start with whitespace |
| Text.TrimEnd | context-control-server.js:208 | the result is a prefix; everything dropped is whitespace; the result does not end with whitespace |
| Text.BlankIffTrimsToEmpty | context-control-server.js:208 | `line.trim()` is falsy exactly when the line is all whitespace (both directions) |
| Text.TrimKeepsWord | context-control-server.js:296 | trimming never loses an occurrence of a word that neither starts nor ends with whitespace |
| Text.TrimSolid | context-control-server.js:239 | a string that neither starts nor ends with whitespace is unchanged by `trim` |
| Text.NonBlank | context-control-server.js:272 | `filter(f => f.trim())` never lengthens the list |
| Text.NonBlankKeepsNonBlank | context-control-server.js:272 | every line the filter keeps is non-blank |
| Text.NonBlankAppend | context-control-server.js:208 | the filter distributes over concatenation, so order is kept |
| Text.Lines | context-control-server.js:290 | `split('\n')` always yields at least one piece |
| Text.JoinLines | context-control-server.js:331 | joining the pieces of `split('\n')` with `'\n'` gives back the text |
| Text.LinesCons | context-control-server.js:208 | a piece without line feeds, then a line feed, is the first piece |
| Text.LinesSingle | context-control-server.js:290 | a text without line feeds is one piece |
| Text.LinesJoin | context-control-server.js:331 | splitting a `join('\n')` of line-free pieces gives the pieces back |
| Text.LinesJoinThen | context-control-server.js:323-333 | lines joined, a line feed, then more text: the lines come back first, then the lines of the rest |
| Text.HeadingThenLines | context-control-server.js:333 | a heading line followed by joined lines splits into the heading and the lines |
| Text.NatToString | context-control-server.js:227 | the decimal rendering is non-empty, all digits, and has no leading zero |
| Text.ParseRendered | context-control-server.js:595 | `parseInt` of a rendered number gives the number back |
| Text.RenderInjective | context-control-server.js:227 | different numbers render differently |
| Text.DigitRoundTrip | context-control-server.js:595 | helper for `Text.ParseRendered`: a digit's value read back from its character is the digit |
| SessionLog.ProgressEntry | context-control-server.js:148-152 | the progress entry holds the summary and no changes or commit suggestion |
| SessionLog.Appended | context-control-server.js:153-156 | on a log ending with a line feed, an append makes the entry the last line and keeps every earlier line |
| SessionLog.Settled | context-control-server.js:153-156 | the lines no append can touch: all of them, or all but the last when the text ends inside it |
| SessionLog.Write | context-control-server.js:153-156 | an `appendFile` adds one line after the settled ones; it is the entry, or unparsable when it continues an unterminated line; the text ends inside it iff no line feed was written |
| SessionLog.WriteClosed | context-control-server.js:153-156 | on a log ending with a line feed, a write is the append of the entry |
| SessionLog.WriteSwallowed | context-control-server.js:153-156 | on a log ending inside its last line, a write keeps the line count, keeps every earlier line, and the last line becomes unparsable |
| Changes.StatusCode | context-control-server.js:209 | `substring(0, 2)` is the first `min(2, n)` characters of the line |
| Changes.Category | context-control-server.js:212-215 | a category never holds more paths than there are lines |
| Changes.ClassifyStatus | context-control-server.js:208-216 | the `forEach` loop pushes exactly the paths `Classify` assigns to each list |
| Changes.CategoryMembership | context-control-server.js:212-215 | a path is in the list for a letter iff some non-blank line has that letter in its code and that path (both directions) |
| Changes.CategoryAppend | context-control-server.js:208-216 | classification distributes over the lines, so each list keeps the order of the status |
| Changes.ClassifyOne | context-control-server.js:212-215 | one line lands in each list whose letter its code holds, and in no other |
| Changes.ClassifySingle | context-control-server.js:208 | a single non-blank line is classified on its own |
| Changes.SingleStatusLine | context-control-server.js:208 | a single non-blank line without line feeds is the only status line |
| Changes.StatusLinesThree | context-control-server.js:208 | three non-blank lines joined by line feeds are the three status lines |
| Changes.ClassifyThree | context-control-server.js:208-216 | each list of three lines is the concatenation of the lists of each line |
| Changes.UntrackedLandsNowhere | context-control-server.js:212-215 | an untracked `?? path` line lands in no list |
| Changes.DoubleCodeLandsTwice | context-control-server.js:212-215 | an `RM path` line lands in both the modified and the renamed list |
| Changes.PorcelainExample | context-control-server.js:208-216 | ` M a`, `A  b`, ` D c` classify as modified [a], added [b], deleted [c], renamed [] |
| Changes.ShortStatusLosesFirstChar | context-control-server.js:209-210 | `M path`, with a one-character code, records the path without its first character |
| Changes.SomeMentions | context-control-server.js:221-222 | `some(f => f.includes(a) \|\| f.includes(b))` holds iff some path contains a or b |
| Changes.CommitType | context-control-server.js:219-222 | feat iff something was added; fix iff not feat and a modified path mentions fix or bug; docs iff neither and one mentions .md or doc; refactor otherwise (each an iff) |
| Changes.ClauseShape | context-control-server.js:227-229 | a clause is empty iff its count is 0; otherwise it starts with its verb and ends in ". " |
| Changes.DescriptionShape | context-control-server.js:226-229 | the description is empty iff nothing was added, modified or deleted; it starts with the added clause (or the modified clause when nothing was added); it ends with the deleted clause when there is one; when non-empty it ends in ". " and starts with a non-space |
| Changes.ModifiedClauseInPlace | context-control-server.js:226-229 | the modified clause sits right after the added clause |
| Changes.TrimDropsFinalSpace | context-control-server.js:239 | trimming a description that ends in ". " drops exactly the final space |
| Changes.TrimmedDescription | context-control-server.js:239 | the logged description is the description without its final space, or empty |
| Resume.ModifiedFiles | context-control-server.js:270-273 | at most five files: the first `min(5, n)` non-blank lines of the `ls-files` output, in order |
| Resume.Parsed | context-control-server.js:280 | when every line parsed, the entries match the lines one for one |
| Resume.RecentSessions | context-control-server.js:276-283 | at most five sessions |
| Resume.RecentSessionsAreTheTail | context-control-server.js:276-283 | no log, or an unparsable line among the last five, gives no sessions; otherwise the sessions are the last `min(5, n)` lines, in order, and the newest line is the last session |
| Resume.LineTodos | context-control-server.js:291-299 | no more TODOs than lines |
| Resume.ScanLines | context-control-server.js:290-299 | the `forEach` loop collects exactly `LineTodos` |
| Resume.ScanTodos | context-control-server.js:286-303 | the loop over the first three files collects exactly `TodosIn` of those files; unreadable files add nothing |
| Resume.MarkerSurvivesTrim | context-control-server.js:292-296 | a TODO's trimmed content still contains TODO or FIXME |
| Resume.LineTodosSound | context-control-server.js:291-299 | every TODO found names its file, a 1-based line in range, that line trimmed, and the line holds a marker |
| Resume.LineTodosComplete | context-control-server.js:291-299 | every line holding TODO or FIXME yields its TODO (1-based number, trimmed content) |
| Resume.LineTodosOrdered | context-control-server.js:291 | the TODOs of one file come in strictly ascending line order |
| Resume.TodosSound | context-control-server.js:286-303 | every TODO found is from a listed, readable file, and its line holds a marker |
| Resume.TodosInAppend | context-control-server.js:286-303 | the TODOs of two runs of files are the TODOs of the first run, then those of the second |
| Resume.FileBlock | context-control-server.js:286-303 | the TODOs of the i-th file sit, as one block, between those of the files before and after it |
| Resume.FileBlocksInOrder | context-control-server.js:286-303 | for files i < j, all TODOs of file i come before all TODOs of file j |
| Resume.ScannedFilesInOrder | context-control-server.js:287-303 | among the three scanned files, the TODOs of an earlier file come before those of a later one |
| Resume.FileTodosIncluded | context-control-server.js:287-303 | the TODOs of every scanned file are among the TODOs found |
| Resume.TodosComplete | context-control-server.js:286-303 | every marked line of every scanned, readable file yields its TODO |
| Resume.FileBullets | context-control-server.js:331 | at most three bullets, `• f` for the first files in order |
| Resume.TodoBullets | context-control-server.js:333 | at most two bullets, one per TODO in order |
| Resume.ResumeBriefing | context-control-server.js:268-340 | the handler with its loops produces exactly the `SmartResume` text |
| Resume.TodoSectionLines | context-control-server.js:333 | the TODO section splits into its heading and bullets, or the all-clear line |
| Resume.BodyReadsBack | context-control-server.js:331-333 | the body splits into the file bullets (or one empty line), a blank line, and the TODO section |
| Resume.HeadLinesOneLine | context-control-server.js:323-330 | with single-line fields, each head line is free of line feeds |
| Resume.BriefingReadsBack | context-control-server.js:323-333 | splitting the briefing at line feeds gives back its eight head lines and its body lines, so every field can be read back from its own line |
| Resume.NewestIsAppended | context-control-server.js:279-306 | on a log ending with a line feed, after an append to a log whose last four lines parse, the appended entry is the last session |
| Resume.FreshStart | context-control-server.js:306-321 | with no log the briefing says "Hoy", "Sesión inicial", the first file (or "ninguno"), and without TODOs "Continuar con <file>" or "Revisar archivos modificados" |
| Resume.TodosComeFirst | context-control-server.js:319 | pending TODOs outrank every other suggestion |
| Resume.ResumeAfterSave | context-control-server.js:311-314 | on a log ending with a line feed, after a summary is saved, the briefing's pending task is that summary, its date is the session's, and its file is the first modified one |
| Resume.ResumeAfterDocumentChanges | context-control-server.js:311-320 | on a log ending with a line feed, after `document_changes` logged an analysis and with no TODOs, the suggestion is "Hacer commit: <type>", the file is the first modified path, and the task stays "Sesión inicial" |
| Roadmap.SkipWhitespace | context-control-server.js:594 | `\s*` is greedy: it stops at the first non-whitespace |
| Roadmap.SkipDigits | context-control-server.js:594 | `\d+` is greedy: it stops at the first non-digit |
| Roadmap.FirstProgress | context-control-server.js:594 | `match` without `g` takes the leftmost place where the pattern matches |
| Roadmap.NoLabelMeansDefault | context-control-server.js:595 | without the label the global progress is 65 |
| Roadmap.ProgressReadsBack | context-control-server.js:594-595 | a roadmap that starts with "Progreso Global**: n%" reports progress n |
| Roadmap.DigitsRunEnds | context-control-server.js:594 | the digit run ends where the rendered number ends |
| Roadmap.HeaderPrefix | context-control-server.js:598-600 | helper for `Roadmap.MatchesAreHeaders`: the fixed part of a phase header is 11 characters |
| Roadmap.HeaderEnd | context-control-server.js:598-600 | a header match is at least 13 characters and lies inside the text |
| Roadmap.NoHeaderInside | context-control-server.js:598-600 | no header starts strictly inside another |
| Roadmap.SkipEmptyStretch | context-control-server.js:598-600 | a stretch where no header starts adds nothing to the count |
| Roadmap.MatchesAreHeaders | context-control-server.js:598-600 | the `/g` match count, which resumes after each match, equals the number of places where a header starts |
| Roadmap.PhaseTitleIsSecondField | context-control-server.js:662 | `currentPhase.split(': ')[1]` is the phase title |
| Roadmap.FirstSeparator | context-control-server.js:662 | the second field of `head: tail` is `tail` when neither holds a colon |
| Roadmap.CurrentPhaseCases | context-control-server.js:604-606 | the phase is UX OPTIMIZADA iff the text mentions "🔄 FASE 7" and not "🔄 FASE 8"; otherwise it is ROADMAP INTELIGENTE |
| Roadmap.EstimatedWeeks | context-control-server.js:612-613 | `Math.ceil(n * 0.5)`: the least number of weeks whose double covers n |
| Roadmap.NextMilestoneCases | context-control-server.js:609 | the milestone is "FASE 9: TESTING COMPLETO" iff the text mentions "FASE 9", and "Optimización final" iff it does not |
| Roadmap.PlannedNineIsNext | context-control-server.js:600-609 | a roadmap holding the planned header `### 📅 FASE 9:` names phase 9 as the next milestone |
| Roadmap.RoadmapStatus | context-control-server.js:594-613 | the three counts are the numbers of headers per glyph; the weeks are the ceiling of half the in-progress and pending phases |
| Roadmap.StatusFields | context-control-server.js:594-609 | the status reports the captured percentage (or 65); its phase is UX OPTIMIZADA iff the text mentions "🔄 FASE 7" and not "🔄 FASE 8"; its milestone is phase 9 iff the text mentions "FASE 9" |
| Roadmap.Repeat | context-control-server.js:620 | `'░'.repeat(n)` is n copies |
| Roadmap.ProgressBar | context-control-server.js:620 | the bar is seven `▓` cells followed by `EmptyCells` `░` cells |
| Roadmap.EmptyCellsShrink | context-control-server.js:620 | at most ten empty cells; none iff progress is at least 100; each 10 points of progress below 100 removes one |
| MetaContext.BlockEnd | context-control-server.js:660 | the lazy `[\s\S]*?(?=##\|$)` stops at the first `##` or at the end |
| MetaContext.NoAnchorNoChange | context-control-server.js:659-667 | a text without the heading is left as it is |
| MetaContext.BlockEndIsFirstHeading | context-control-server.js:660 | the first `##` after the heading, or the end, is where the match stops |
| MetaContext.RewriteSplices | context-control-server.js:659-667 | the text before the first heading and from the next `##` on is kept, and the new section sits between them |
| MetaContext.ItemsWithoutHash | context-control-server.js:661-666 | the new section holds no `#` after its heading when the title holds none |
| MetaContext.AnchorStaysFirst | context-control-server.js:659-667 | after the rewrite the new heading is still the first one |
| MetaContext.SectionRunsToSuffix | context-control-server.js:659-667 | after the rewrite the new section runs up to the kept suffix |
| MetaContext.RewriteIdempotent | context-control-server.js:659-667 | rewriting again with the same title changes nothing |
| Dispatcher.ToolNamesMatch | context-control-server.js:135-693 | each tool is reached by its own name and by no other (both directions) |
| Dispatcher.CommitLineReadsBack | context-control-server.js:166-174 | the `crear_commit` line starts with its opening; the type runs to the first `]` and the description follows `] ` |
| Dispatcher.DocumentChangesCall | context-control-server.js:196-266 | the handler with the classifier loop gives exactly the `document_changes` outcome |
| Dispatcher.SmartResumeCall | context-control-server.js:268-342 | the handler with the TODO loops gives exactly the `smart_resume` outcome |
| Dispatcher.CallTool | context-control-server.js:131-703 | the handler as a program gives exactly the `Dispatch` reply |
| Dispatcher.ByName | context-control-server.js:135 | calling a tool by its name runs that tool's handler |
| Dispatcher.OneTextItem | context-control-server.js:131-703 | every reply holds exactly one text item |
| Dispatcher.UnknownToolRejected | context-control-server.js:692-703 | a name no tool has gives "Error: Herramienta desconocida: <name>" and changes nothing |
| Dispatcher.SaveLog | context-control-server.js:147-164 | a failed append gives "Error: <message>" and leaves the log alone; otherwise the timestamped summary is written as one line ending in a line feed |
| Dispatcher.ChangesLog | context-control-server.js:196-245 | a failing git command or append gives "Error: <message>" and writes nothing; otherwise the analysis of the classified status is written as one line ending in a line feed |
| Dispatcher.HooksLog | context-control-server.js:400-451 | a failed hook write or append gives "❌ Error instalando hooks: <message>" and leaves the log alone; otherwise the success text, one more line after the settled ones, not valid JSON, and no line feed after it |
| Dispatcher.QuietLog | context-control-server.js:131-703 | every tool but `guardar_progreso`, `document_changes` and `setup_hooks` leaves the log alone |
| Dispatcher.LogOnlyGrowsByOne | context-control-server.js:147-451 | a call leaves the log as it was, or it is `guardar_progreso`, `document_changes` or `setup_hooks`, its append succeeded, it wrote exactly one line after the settled ones, and the log ends inside that line iff the tool is `setup_hooks` |
| Dispatcher.LoggingStep | context-control-server.js:147-451 | the three logging tools leave the log alone or, when the append succeeds, write one line after the settled ones, leaving the text inside it iff the tool is `setup_hooks` |
| Dispatcher.BrokenLastLine | context-control-server.js:276-283 | a log whose last line does not parse gives no sessions |
| Dispatcher.SetupHidesSessions | context-control-server.js:409-417 | after `setup_hooks` succeeds, `smart_resume` finds no session |
| Dispatcher.SaveAfterSetupIsLost | context-control-server.js:147-156 | a summary saved right after `setup_hooks` joins its line: the line count stays, the log ends with a line feed again, and the briefing's pending task is "Sesión inicial" |
| Dispatcher.RoadmapMeta | context-control-server.js:656-671 | with a readable roadmap the meta-context after `roadmap_status` is the rewrite for the current phase's title |
| Dispatcher.MetaSettles | context-control-server.js:656-671 | applying the phase's meta-context update to its own result changes nothing |
| Dispatcher.QuietMeta | context-control-server.js:656-671 | every tool but `roadmap_status` leaves the meta-context alone |
| Dispatcher.MetaContextOnlyByRoadmap | context-control-server.js:656-671 | only `roadmap_status` writes the meta-context |
| Dispatcher.UnreadableRoadmap | context-control-server.js:681-689 | an unreadable roadmap is reported as "❌ Error leyendo roadmap: <message>" with nothing changed |
| Dispatcher.TitleHashFree | context-control-server.js:604-606 | no phase title holds `#` |
| Dispatcher.RoadmapStatusSettles | context-control-server.js:656-671 | a second `roadmap_status` leaves the meta-context as the first one left it |
| Dispatcher.SavedEntry | context-control-server.js:148-156 | `guardar_progreso` writes the summary it was given as a line ending in a line feed |
| Dispatcher.ResumeReply | context-control-server.js:268-342 | `smart_resume` answers with the briefing when git can list the files |
| Dispatcher.SaveThenResume | context-control-server.js:306-313 | on a log ending with a line feed, after `guardar_progreso` saved a summary, `smart_resume` answers with a briefing whose pending task is that summary |

Definitions without a contract of their own, with the source lines they
model and the rows that state their properties:

- Dispatcher.Dispatch, Dispatcher.Handle, Dispatcher.Call
  (context-control-server.js:131-703): `Dispatcher.ToolNamesMatch`,
  `Dispatcher.ByName`, `Dispatcher.OneTextItem`,
  `Dispatcher.UnknownToolRejected` and `Dispatcher.CallTool`.
- Dispatcher.SetupHooksReply (context-control-server.js:400-451):
  `Dispatcher.HooksLog`.
- Dispatcher.RoadmapStatusReply (context-control-server.js:588-690):
  `Dispatcher.RoadmapMeta`, `Dispatcher.UnreadableRoadmap` and
  `Dispatcher.RoadmapStatusSettles`.
- Dispatcher.CommitLine (context-control-server.js:166-174):
  `Dispatcher.CommitLineReadsBack`.
- Resume.SmartResume, Resume.Brief, Resume.Render
  (context-control-server.js:268-340): `Resume.ResumeBriefing`,
  `Resume.BriefingReadsBack`, `Resume.FreshStart`, `Resume.TodosComeFirst`
  and `Resume.ResumeAfterSave`.
- MetaContext.Rewrite (context-control-server.js:657-667):
  `MetaContext.RewriteSplices`, `MetaContext.AnchorStaysFirst` and
  `MetaContext.RewriteIdempotent`.
- Roadmap.Report (context-control-server.js:616-654): definition; no
  property beyond `Roadmap.ProgressBar` (see "## Left out").
- Roadmap.CurrentPhase (context-control-server.js:604-606):
  `Roadmap.CurrentPhaseCases` and `Roadmap.StatusFields`.
- Roadmap.GlobalProgress (context-control-server.js:594-595):
  `Roadmap.NoLabelMeansDefault` and `Roadmap.ProgressReadsBack`.
- Roadmap.NextMilestone (context-control-server.js:609):
  `Roadmap.NextMilestoneCases` and `Roadmap.PlannedNineIsNext`.
- Changes.Classify (context-control-server.js:208-216):
  `Changes.CategoryMembership` and `Changes.CategoryAppend`.
- Changes.Description (context-control-server.js:226-229):
  `Changes.DescriptionShape` and `Changes.ModifiedClauseInPlace`.
- Changes.ChangesLogEntry (context-control-server.js:231-242):
  `Dispatcher.ChangesLog` and `Resume.ResumeAfterDocumentChanges`.
- Changes.ChangesReport (context-control-server.js:247-263): definition;
  no property beyond `Dispatcher.DocumentChangesCall`.

## Left out

- The hook templates of `setup_hooks` (lines 346-398) are shell scripts
  that git runs later; their text is not modelled. Writing them and
  `chmod` are an input: the message they throw, if any.
- `metrics_dashboard` (lines 453-586) catches every failed read itself and
  always answers with its dashboard. That text is an input; its analysis
  of the log and of git history is not part of this model.
- `actualizar_roadmap` and `generar_reporte` only format constant text.
  They are modelled as written, with no property beyond the dispatcher's.
- The MCP server setup, the tool list and the stdio transport are not
  modelled.
- File and process I/O is not modelled. Every `readFile`, `appendFile`,
  `writeFile` and `execSync` is an input of `World`: its result, or the
  message of the error it throws.
- Clocks and locale dates are inputs: the ISO timestamp (`now`), the
  locale date of the newest session (`sessionDate`) and of the call
  (`today`). The formatting of `toLocaleDateString` is not modelled.
- JSON is not modelled. `JSON.stringify` and `JSON.parse` become a log
  whose lines are either a parsed entry or unparsable.
  - A line that parses to something other than an object (`null`, a
    number) is not distinguished. The source would treat a falsy one as no
    session.
  - A JSON text continued by other text on the same line is taken as not
    valid JSON. That holds unless the added text is only whitespace, which
    no entry written here is.
- SessionLog.Write: a log text with whitespace after its last line feed
  (a blank last line, or spaces after it) is not represented by `LogFile`,
  so `Write` and `Dispatcher.SaveThenResume` do not cover it. On "A\n\n"
  the source's next append gives an empty line that fails to parse; on
  "A\n " the next entry parses on its own line. No tool writes such a
  tail.
- Arguments are modelled as a map of strings. A missing argument prints
  as `undefined`, as in a template literal. A non-string argument, or
  `args` itself missing (which throws a `TypeError` in JavaScript), is not
  modelled.
- Strings are sequences of Unicode code points. JavaScript counts UTF-16
  code units, so `substring(0, 50)` in a TODO bullet and `substring(0, 2)`
  of a status line can differ from the model on astral characters.
- Roadmap.GlobalProgress: `parseInt` is exact here. JavaScript loses
  precision above 2^53.
- Roadmap.Report: the fixed sections of the report ("FASES RECIÉN
  COMPLETADAS" through "INSIGHTS") are reproduced as constant text. No
  property is stated about them.
- Dispatcher.SaveThenResume: it assumes a log ending with a line feed.
  After `setup_hooks` the saved summary is lost instead
  (`Dispatcher.SaveAfterSetupIsLost`).
