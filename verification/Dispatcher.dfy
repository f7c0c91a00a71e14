/**
  The `tools/call` handler: route a tool name to its handler, run it against
  the outside world (the files it reads, the output of git, the clock), and
  turn any error into a reply. Every reply is a single text item.
 */
module Dispatcher {
  import opened Wrappers
  import opened Text
  import opened SessionLog
  import Changes
  import Resume
  import Roadmap
  import MetaContext

  /** The ten tools the server registers. */
  datatype Tool =
    | IniciarSesion | GuardarProgreso | CrearCommit | ActualizarRoadmap | GenerarReporte
    | DocumentChanges | SmartResume | SetupHooks | MetricsDashboard | RoadmapStatus

  function ToolName(t: Tool): string
  {
    match t
    case IniciarSesion => "iniciar_sesion"
    case GuardarProgreso => "guardar_progreso"
    case CrearCommit => "crear_commit"
    case ActualizarRoadmap => "actualizar_roadmap"
    case GenerarReporte => "generar_reporte"
    case DocumentChanges => "document_changes"
    case SmartResume => "smart_resume"
    case SetupHooks => "setup_hooks"
    case MetricsDashboard => "metrics_dashboard"
    case RoadmapStatus => "roadmap_status"
  }

  /** The `switch (name)`: the tool with that name, if any. */
  function ToolOf(name: string): Option<Tool>
  {
    if name == "iniciar_sesion" then Some(IniciarSesion)
    else if name == "guardar_progreso" then Some(GuardarProgreso)
    else if name == "crear_commit" then Some(CrearCommit)
    else if name == "actualizar_roadmap" then Some(ActualizarRoadmap)
    else if name == "generar_reporte" then Some(GenerarReporte)
    else if name == "document_changes" then Some(DocumentChanges)
    else if name == "smart_resume" then Some(SmartResume)
    else if name == "setup_hooks" then Some(SetupHooks)
    else if name == "metrics_dashboard" then Some(MetricsDashboard)
    else if name == "roadmap_status" then Some(RoadmapStatus)
    else None
  }

  /** Each tool is reached by its own name and by no other. */
  lemma ToolNamesMatch(name: string, t: Tool)
    ensures ToolOf(name) == Some(t) <==> name == ToolName(t)
  {
  }

  /** The arguments of the call, as strings; a missing argument is JavaScript's
      `undefined`. */
  type Args = map<string, string>

  function Arg(args: Args, key: string): Option<string>
  {
    if key in args then Some(args[key]) else None
  }

  /** How an argument prints inside a template literal. */
  function Shown(v: Option<string>): string
  {
    if v.Some? then v.value else "undefined"
  }

  /** Everything a call reads from, or writes to, the outside world. */
  datatype World = World(
    metaContext: Outcome<string>,    // reading .claude/meta-context.md
    metaWriteFails: bool,            // writing it back throws
    log: LogFile,                    // .claude/session-log.jsonl
    appendError: Option<string>,     // appending to the log throws this message
    gitStatus: Outcome<string>,      // git status --porcelain
    gitDiff: Outcome<string>,        // git diff --stat
    gitLsFiles: Outcome<string>,     // git ls-files -m -o --exclude-standard
    files: map<string, string>,      // the files that can be read, by path
    roadmap: Outcome<string>,        // reading docs/ROADMAP-INTERACTIVE.md
    now: string,                     // new Date().toISOString()
    sessionDate: string,             // locale date of the newest logged session
    today: string,                   // locale date of the call
    hooksError: Option<string>,      // writing the hooks or making them executable throws this message
    metrics: string)                 // the dashboard metrics_dashboard renders

  /** A reply: its text items and the log and meta-context after the call. */
  datatype Response = Response(
    content: seq<string>,
    log: LogFile,
    metaContext: Outcome<string>)

  /** What a handler produced before errors are mapped to text. */
  datatype Handled = Handled(text: string, log: LogFile, metaContext: Outcome<string>)

  /** The opening of the `crear_commit` reply, up to the commit type. */
  const CommitOpening: string := "✅ Commit: ["

  /** The line `crear_commit` formats from the type and the description. */
  function CommitLine(tipo: string, descripcion: string): string
  {
    CommitOpening + tipo + "] " + descripcion
  }

  /** The type and the description can be read back from the commit line:
      the type runs from the opening bracket to the first `]`, and the
      description follows the `] `. */
  lemma CommitLineReadsBack(tipo: string, descripcion: string)
    requires ']' !in tipo
    ensures var text := CommitLine(tipo, descripcion);
      var close := |CommitOpening| + |tipo|;
      && StartsWith(text, CommitOpening)
      && IndexFrom(text, "]", |CommitOpening|) == Some(close)
      && text[|CommitOpening|..close] == tipo
      && text[close + 2..] == descripcion
  {
    var text := CommitLine(tipo, descripcion);
    var open := |CommitOpening|;
    var close := open + |tipo|;
    assert text[..open] == CommitOpening;
    assert text[open..close] == tipo;
    assert text[close..close + 1] == "]";
    assert text[close + 2..] == descripcion;
    assert OccursAt(text, "]", close);
    forall k | open <= k < close ensures !OccursAt(text, "]", k) {
      assert text[k] == tipo[k - open];
      assert text[k] in tipo;
      assert text[k..k + 1] == [text[k]];
    }
  }

  /** A handler that only answers, changing nothing. */
  function Answer(text: string, w: World): Outcome<Handled>
  {
    Ok(Handled(text, w.log, w.metaContext))
  }

  /** `guardar_progreso`: append the summary with a timestamp to the log. */
  function SaveProgressReply(args: Args, w: World): Outcome<Handled>
  {
    if w.appendError.Some? then Fail(w.appendError.value)
    else Ok(Handled("✅ Progreso guardado: " + Shown(Arg(args, "resumen")),
                    Write(w.log, Some(ProgressEntry(w.now, Arg(args, "resumen"))), true), w.metaContext))
  }

  /** `document_changes`: classify the porcelain status, append the entry to
      the log, and report. */
  function DocumentChangesReply(w: World): Outcome<Handled>
  {
    if w.gitStatus.Fail? then Fail(w.gitStatus.message)
    else if w.gitDiff.Fail? then Fail(w.gitDiff.message)
    else if w.appendError.Some? then Fail(w.appendError.value)
    else
      var c := Changes.Classify(w.gitStatus.value);
      Ok(Handled(Changes.ChangesReport(c, w.gitDiff.value),
                 Write(w.log, Some(Changes.ChangesLogEntry(c, w.gitDiff.value, w.now)), true), w.metaContext))
  }

  /** `smart_resume`: the briefing built from the modified files, the log and
      the files it scans. */
  function SmartResumeReply(w: World): Outcome<Handled>
  {
    if w.gitLsFiles.Fail? then Fail(w.gitLsFiles.message)
    else Answer(Resume.SmartResume(w.gitLsFiles.value, w.log.lines, w.files, w.sessionDate), w)
  }

  /** Line k of the reply of `setup_hooks` once the hooks are installed; the
      last line for every k from 15 on. */
  function NoticeLine(k: nat): string
  {
    if k == 0 then "🔧 **GIT HOOKS INSTALADOS EXITOSAMENTE**"
    else if k == 1 then ""
    else if k == 2 then "✅ **pre-commit hook**: "
    else if k == 3 then "  • Actualiza timestamp en meta-context.md"
    else if k == 4 then "  • Registra archivos staged en session-log.jsonl"
    else if k == 5 then "  • Validación de servidor MCP"
    else if k == 6 then ""
    else if k == 7 then "✅ **post-commit hook**:"
    else if k == 8 then "  • Log automático de hash de commit"
    else if k == 9 then "  • Registra mensaje y archivos modificados"
    else if k == 10 then "  • Tracking completo en session-log.jsonl"
    else if k == 11 then ""
    else if k == 12 then "🎯 **Integración automática activada**:"
    else if k == 13 then "Cada commit ahora actualiza automáticamente todo el sistema MCP sin intervención manual."
    else if k == 14 then ""
    else "📊 Instalación registrada en session-log.jsonl"
  }

  /** The reply of `setup_hooks` once the hooks are installed: its sixteen
      lines. */
  function HooksInstalled(): string
  {
    Join(seq(16, NoticeLine), "\n")
  }

  /** The opening of the reply of `setup_hooks` when something it does throws. */
  const HooksFailed: string := "❌ Error instalando hooks: "

  /** `setup_hooks`: write the two hooks, make them executable and record the
      installation in the log; it answers its own errors. The record ends
      with the two characters `\` and `n` instead of a line feed, so that it
      is not valid JSON and the log is left ending inside that line. */
  function SetupHooksReply(w: World): Outcome<Handled>
  {
    if w.hooksError.Some? then Answer(HooksFailed + w.hooksError.value, w)
    else if w.appendError.Some? then Answer(HooksFailed + w.appendError.value, w)
    else Ok(Handled(HooksInstalled(), Write(w.log, None, false), w.metaContext))
  }

  /** The meta-context after `roadmap_status`: rewritten when it can be read
      and written back, as it was otherwise. */
  function MetaAfterRoadmap(w: World, current: Roadmap.Phase): Outcome<string>
  {
    if w.metaContext.Ok? && !w.metaWriteFails
    then Ok(MetaContext.Rewrite(w.metaContext.value, Roadmap.PhaseTitle(current)))
    else w.metaContext
  }

  /** `roadmap_status`: an unreadable roadmap is reported as text; otherwise
      the report, and the meta-context rewritten for the current phase. */
  function RoadmapStatusReply(w: World): Outcome<Handled>
  {
    if w.roadmap.Fail? then Answer("❌ Error leyendo roadmap: " + w.roadmap.message, w)
    else
      var st := Roadmap.RoadmapStatus(w.roadmap.value);
      Ok(Handled(Roadmap.Report(st, w.today), w.log, MetaAfterRoadmap(w, st.current)))
  }

  /** One handler; `Fail` carries the message of the error it throws. */
  function Handle(t: Tool, args: Args, w: World): Outcome<Handled>
  {
    match t
    case IniciarSesion =>
      if w.metaContext.Fail? then Fail(w.metaContext.message)
      else Answer("✅ Sesión iniciada con objetivo: \"" + Shown(Arg(args, "objetivo")) + "\"\n\n"
                  + w.metaContext.value, w)
    case GuardarProgreso => SaveProgressReply(args, w)
    case CrearCommit => Answer(CommitLine(Shown(Arg(args, "tipo")), Shown(Arg(args, "descripcion"))), w)
    case ActualizarRoadmap => Answer("✅ Roadmap actualizado", w)
    case GenerarReporte => Answer("📊 Reporte " + Shown(Arg(args, "tipo")) + " generado", w)
    case DocumentChanges => DocumentChangesReply(w)
    case SmartResume => SmartResumeReply(w)
    case SetupHooks => SetupHooksReply(w)
    case MetricsDashboard => Answer(w.metrics, w)
    case RoadmapStatus => RoadmapStatusReply(w)
  }

  /** A call of a known tool: every error its handler throws becomes a reply
      starting with `Error: `, and leaves the world as it was. */
  function Call(t: Tool, args: Args, w: World): Response
  {
    Respond(Handle(t, args, w), w)
  }

  /** The reply to a handler's outcome: its text, or the error message, which
      leaves the world as it was. */
  function Respond(h: Outcome<Handled>, w: World): Response
  {
    match h
    case Fail(message) => Response(["Error: " + message], w.log, w.metaContext)
    case Ok(handled) => Response([handled.text], handled.log, handled.metaContext)
  }

  /** The whole call: a name no tool has is an error naming it. */
  function Dispatch(name: string, args: Args, w: World): Response
  {
    match ToolOf(name)
    case None => Response(["Error: Herramienta desconocida: " + name], w.log, w.metaContext)
    case Some(t) => Call(t, args, w)
  }

  /** `document_changes` as a program: the status lines are classified by
      the loop of the change classifier. */
  method DocumentChangesCall(w: World) returns (h: Outcome<Handled>)
    ensures h == DocumentChangesReply(w)
  {
    if w.gitStatus.Fail? {
      h := Fail(w.gitStatus.message);
    } else if w.gitDiff.Fail? {
      h := Fail(w.gitDiff.message);
    } else if w.appendError.Some? {
      h := Fail(w.appendError.value);
    } else {
      var c := Changes.ClassifyStatus(w.gitStatus.value);
      var entry := Changes.ChangesLogEntry(c, w.gitDiff.value, w.now);
      h := Ok(Handled(Changes.ChangesReport(c, w.gitDiff.value), Write(w.log, Some(entry), true), w.metaContext));
    }
  }

  /** `smart_resume` as a program: the TODO scan runs as loops. */
  method SmartResumeCall(w: World) returns (h: Outcome<Handled>)
    ensures h == SmartResumeReply(w)
  {
    if w.gitLsFiles.Fail? {
      h := Fail(w.gitLsFiles.message);
    } else {
      var text := Resume.ResumeBriefing(w.gitLsFiles.value, w.log.lines, w.files, w.sessionDate);
      h := Answer(text, w);
    }
  }

  /** The handler as a program. */
  method CallTool(name: string, args: Args, w: World) returns (r: Response)
    ensures r == Dispatch(name, args, w)
  {
    match ToolOf(name)
    case None =>
      r := Response(["Error: Herramienta desconocida: " + name], w.log, w.metaContext);
    case Some(t) =>
      var h: Outcome<Handled>;
      if t == DocumentChanges {
        h := DocumentChangesCall(w);
        ChangesHandler(args, w);
      } else if t == SmartResume {
        h := SmartResumeCall(w);
        ResumeHandler(args, w);
      } else {
        h := Handle(t, args, w);
      }
      assert h == Handle(t, args, w);
      r := Respond(h, w);
  }

  /** `document_changes` is handled by its reply function. */
  lemma ChangesHandler(args: Args, w: World)
    ensures Handle(DocumentChanges, args, w) == DocumentChangesReply(w)
  {
  }

  /** `smart_resume` is handled by its reply function. */
  lemma ResumeHandler(args: Args, w: World)
    ensures Handle(SmartResume, args, w) == SmartResumeReply(w)
  {
  }

  /** Calling a tool by its name runs that tool's handler. */
  lemma ByName(t: Tool, args: Args, w: World)
    ensures Dispatch(ToolName(t), args, w) == Call(t, args, w)
  {
    ToolNamesMatch(ToolName(t), t);
  }

  // ------------------------------------------------------------- promises

  /** Every call answers with exactly one text item. */
  lemma OneTextItem(name: string, args: Args, w: World)
    ensures |Dispatch(name, args, w).content| == 1
  {
  }

  /** A name no tool has is answered with an error naming it, and changes
      nothing. */
  lemma UnknownToolRejected(name: string, args: Args, w: World)
    requires forall t: Tool :: name != ToolName(t)
    ensures Dispatch(name, args, w) == Response(["Error: Herramienta desconocida: " + name], w.log, w.metaContext)
  {
    if ToolOf(name).Some? {
      ToolNamesMatch(name, ToolOf(name).value);
    }
  }

  /** `guardar_progreso`: when the append throws, the reply is the error and
      the log is unchanged; otherwise the timestamped summary is written as
      one more line, ended by a line feed. */
  lemma SaveLog(args: Args, w: World)
    ensures var r := Call(GuardarProgreso, args, w);
      && (w.appendError.Some? ==> r == Response(["Error: " + w.appendError.value], w.log, w.metaContext))
      && (w.appendError.None? ==> r.log == Write(w.log, Some(ProgressEntry(w.now, Arg(args, "resumen"))), true))
      && (w.appendError.None? ==> WroteOneLine(r.log, w.log) && !r.log.open)
  {
  }

  /** `document_changes`: when git or the append throws, the reply is the
      error and the log is unchanged; otherwise the analysis of the
      classified status is written as one more line, ended by a line feed. */
  lemma ChangesLog(args: Args, w: World)
    ensures var r := Call(DocumentChanges, args, w);
      && (w.gitStatus.Fail? ==> r == Response(["Error: " + w.gitStatus.message], w.log, w.metaContext))
      && (w.gitStatus.Ok? && w.gitDiff.Fail? ==>
            r == Response(["Error: " + w.gitDiff.message], w.log, w.metaContext))
      && (w.gitStatus.Ok? && w.gitDiff.Ok? && w.appendError.Some? ==>
            r == Response(["Error: " + w.appendError.value], w.log, w.metaContext))
      && (w.gitStatus.Ok? && w.gitDiff.Ok? && w.appendError.None? ==>
            r.log == Write(w.log, Some(Changes.ChangesLogEntry(Changes.Classify(w.gitStatus.value), w.gitDiff.value, w.now)), true))
      && (w.gitStatus.Ok? && w.gitDiff.Ok? && w.appendError.None? ==> WroteOneLine(r.log, w.log) && !r.log.open)
  {
    ChangesHandler(args, w);
  }

  /** `setup_hooks`: when writing the hooks or the log throws, the reply says
      so in its own text and the log is unchanged; otherwise the reply is the
      installation notice, and the log gains one line that is not valid JSON
      and is left ending inside it. */
  lemma HooksLog(args: Args, w: World)
    ensures var r := Call(SetupHooks, args, w);
      && (w.hooksError.Some? ==> r == Response([HooksFailed + w.hooksError.value], w.log, w.metaContext))
      && (w.hooksError.None? && w.appendError.Some? ==>
            r == Response([HooksFailed + w.appendError.value], w.log, w.metaContext))
      && (w.hooksError.None? && w.appendError.None? ==>
            && r.content == [HooksInstalled()]
            && WroteOneLine(r.log, w.log)
            && r.log.lines.value[|r.log.lines.value| - 1].None?
            && r.log.open)
  {
  }

  /** The three writing tools leave the log as it was or write one line;
      only `setup_hooks` leaves it ending inside that line. */
  lemma LoggingStep(t: Tool, args: Args, w: World)
    requires t == GuardarProgreso || t == DocumentChanges || t == SetupHooks
    ensures var r := Call(t, args, w);
      r.log == w.log || (w.appendError.None? && WroteOneLine(r.log, w.log) && (r.log.open <==> t == SetupHooks))
  {
    if t == GuardarProgreso {
      SaveLog(args, w);
    } else if t == DocumentChanges {
      ChangesLog(args, w);
    } else {
      HooksLog(args, w);
    }
  }

  /** The other tools never write the log. */
  lemma QuietLog(t: Tool, args: Args, w: World)
    requires t != GuardarProgreso && t != DocumentChanges && t != SetupHooks
    ensures Call(t, args, w).log == w.log
  {
  }

  /** Only `guardar_progreso`, `document_changes` and `setup_hooks` write to
      the log, each writing exactly one line after the settled ones; a call
      that fails writes nothing, and only `setup_hooks` leaves the log ending
      inside its last line. */
  lemma LogOnlyGrowsByOne(name: string, args: Args, w: World)
    ensures var r := Dispatch(name, args, w);
      r.log == w.log ||
      (&& (name == "guardar_progreso" || name == "document_changes" || name == "setup_hooks")
       && w.appendError.None?
       && WroteOneLine(r.log, w.log)
       && (r.log.open <==> name == "setup_hooks"))
  {
    match ToolOf(name)
    case None =>
    case Some(t) =>
      ToolNamesMatch(name, t);
      if t == GuardarProgreso || t == DocumentChanges || t == SetupHooks {
        LoggingStep(t, args, w);
      } else {
        QuietLog(t, args, w);
      }
  }

  /** Only `roadmap_status` writes the meta-context. */
  lemma MetaContextOnlyByRoadmap(name: string, args: Args, w: World)
    requires ToolOf(name) != Some(RoadmapStatus)
    ensures Dispatch(name, args, w).metaContext == w.metaContext
  {
    match ToolOf(name)
    case None =>
    case Some(t) => QuietMeta(t, args, w);
  }

  /** The tools other than `roadmap_status` never write the meta-context. */
  lemma QuietMeta(t: Tool, args: Args, w: World)
    requires t != RoadmapStatus
    ensures Call(t, args, w).metaContext == w.metaContext
  {
  }

  /** A roadmap that cannot be read is reported in the reply itself, not as
      an error, and the meta-context is left alone. */
  lemma UnreadableRoadmap(args: Args, w: World)
    requires w.roadmap.Fail?
    ensures Call(RoadmapStatus, args, w)
      == Response(["❌ Error leyendo roadmap: " + w.roadmap.message], w.log, w.metaContext)
  {
  }

  /** The phase titles hold no '#', so a rewrite with them is idempotent. */
  lemma TitleHashFree(p: Roadmap.Phase)
    ensures '#' !in Roadmap.PhaseTitle(p)
  {
  }

  /** Rewriting the meta-context a second time for the same phase leaves it
      as the first rewrite did. */
  lemma MetaSettles(w: World, p: Roadmap.Phase)
    ensures MetaAfterRoadmap(w.(metaContext := MetaAfterRoadmap(w, p)), p) == MetaAfterRoadmap(w, p)
  {
    TitleHashFree(p);
    if w.metaContext.Ok? && !w.metaWriteFails {
      MetaContext.RewriteIdempotent(w.metaContext.value, Roadmap.PhaseTitle(p));
    }
  }

  /** With a readable roadmap, `roadmap_status` leaves the meta-context
      rewritten for the current phase when it could be read and written. */
  lemma RoadmapMeta(args: Args, w: World)
    requires w.roadmap.Ok?
    ensures Call(RoadmapStatus, args, w).metaContext
      == MetaAfterRoadmap(w, Roadmap.RoadmapStatus(w.roadmap.value).current)
  {
  }

  /** Asking for the roadmap status twice leaves the meta-context as asking
      once did. */
  lemma RoadmapStatusSettles(args: Args, w: World)
    requires w.roadmap.Ok?
    ensures var once := Call(RoadmapStatus, args, w);
      var twice := Call(RoadmapStatus, args, w.(metaContext := once.metaContext));
      twice.metaContext == once.metaContext
  {
    var p := Roadmap.RoadmapStatus(w.roadmap.value).current;
    RoadmapMeta(args, w);
    var once := Call(RoadmapStatus, args, w);
    RoadmapMeta(args, w.(metaContext := once.metaContext));
    MetaSettles(w, p);
  }

  /** `guardar_progreso` appends its summary, when the append succeeds. */
  lemma SavedEntry(resumen: string, w: World)
    requires w.appendError.None?
    ensures Call(GuardarProgreso, map["resumen" := resumen], w).log
      == Write(w.log, Some(ProgressEntry(w.now, Some(resumen))), true)
  {
    assert Arg(map["resumen" := resumen], "resumen") == Some(resumen);
  }

  /** `smart_resume` answers with the briefing, when git can list the files. */
  lemma ResumeReply(args: Args, w: World)
    requires w.gitLsFiles.Ok?
    ensures Call(SmartResume, args, w).content
      == [Resume.SmartResume(w.gitLsFiles.value, w.log.lines, w.files, w.sessionDate)]
  {
    ResumeHandler(args, w);
  }

  /** After `guardar_progreso` saved a non-empty summary to a log that ends
      with a line feed, `smart_resume` renders a briefing whose pending task
      is that summary. */
  lemma SaveThenResume(resumen: string, args: Args, w: World)
    requires resumen != "" && w.appendError.None? && w.gitLsFiles.Ok? && !w.log.open
    requires Resume.AllParsed(TakeLast(LogLines(w.log.lines), 4))
    ensures var saved := Call(GuardarProgreso, map["resumen" := resumen], w);
      var files := Resume.ModifiedFiles(w.gitLsFiles.value);
      var b := Resume.Brief(files, Resume.RecentSessions(saved.log.lines),
                            Resume.TodosIn(Take(files, 3), w.files), w.sessionDate);
      && Call(SmartResume, args, w.(log := saved.log)).content == [Resume.Render(b)]
      && b.lastTask == resumen
  {
    var files := Resume.ModifiedFiles(w.gitLsFiles.value);
    var entry := ProgressEntry(w.now, Some(resumen));
    SavedEntry(resumen, w);
    WriteClosed(w.log, entry, true);
    var saved := Call(GuardarProgreso, map["resumen" := resumen], w);
    assert saved.log.lines == Appended(w.log.lines, entry);
    ResumeReply(args, w.(log := saved.log));
    Resume.ResumeAfterSave(w.log.lines, w.now, resumen, files,
                           Resume.TodosIn(Take(files, 3), w.files), w.sessionDate);
  }

  /** A log whose last line does not parse yields no session. */
  lemma BrokenLastLine(log: LogFile)
    requires log.lines.Some? && log.lines.value != [] && log.lines.value[|log.lines.value| - 1].None?
    ensures Resume.RecentSessions(log.lines) == []
  {
    var lines := log.lines.value;
    var tail := TakeLast(lines, 5);
    assert tail[|tail| - 1] == lines[|lines| - 1];
  }

  /** Once `setup_hooks` has installed the hooks, `smart_resume` knows no
      session: the newest log line is the installation record, which does
      not parse. */
  lemma SetupHidesSessions(args: Args, w: World)
    requires w.hooksError.None? && w.appendError.None?
    ensures Resume.RecentSessions(Call(SetupHooks, args, w).log.lines) == []
  {
    HooksLog(args, w);
    BrokenLastLine(Call(SetupHooks, args, w).log);
  }

  /** A summary saved right after `setup_hooks` is lost: it continues the
      installation record's line, the log keeps its number of lines, and the
      next briefing still shows the initial session as the pending task. */
  lemma SaveAfterSetupIsLost(resumen: string, args: Args, w: World,
                             files: seq<string>, todos: seq<Resume.Todo>, localeDate: string)
    requires w.hooksError.None? && w.appendError.None?
    ensures var installed := Call(SetupHooks, args, w);
      var saved := Call(GuardarProgreso, map["resumen" := resumen], w.(log := installed.log));
      && |LogLines(saved.log.lines)| == |LogLines(installed.log.lines)|
      && !saved.log.open
      && Resume.Brief(files, Resume.RecentSessions(saved.log.lines), todos, localeDate).lastTask == "Sesión inicial"
  {
    HooksLog(args, w);
    var installed := Call(SetupHooks, args, w);
    var w2 := w.(log := installed.log);
    SavedEntry(resumen, w2);
    WriteSwallowed(installed.log, ProgressEntry(w.now, Some(resumen)), true);
    var saved := Call(GuardarProgreso, map["resumen" := resumen], w2);
    BrokenLastLine(saved.log);
  }
}
