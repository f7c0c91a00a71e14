/**
  The `roadmap_status` tool: read the global progress and the phase headers
  of `docs/ROADMAP-INTERACTIVE.md`, derive the current phase, the next
  milestone and an estimate in weeks, and render the status report.
 */
module Roadmap {
  import opened Wrappers
  import opened Text

  // ------------------------------------------------------ global progress

  /** The label the progress regular expression starts with. */
  const ProgressLabel: string := "Progreso Global**:"

  /** The end of the run of whitespace (`\s*`, greedy) that starts at i. */
  function SkipWhitespace(s: string, i: nat): (j: nat)
    requires i <= |s|
    decreases |s| - i
    ensures i <= j <= |s|
    ensures forall k :: i <= k < j ==> IsWhitespace(s[k])
    ensures j < |s| ==> !IsWhitespace(s[j])
  {
    if i < |s| && IsWhitespace(s[i]) then SkipWhitespace(s, i + 1) else i
  }

  /** The end of the run of decimal digits (`\d+`, greedy) that starts at i. */
  function SkipDigits(s: string, i: nat): (j: nat)
    requires i <= |s|
    decreases |s| - i
    ensures i <= j <= |s|
    ensures forall k :: i <= k < j ==> IsDigit(s[k])
    ensures j < |s| ==> !IsDigit(s[j])
  {
    if i < |s| && IsDigit(s[i]) then SkipDigits(s, i + 1) else i
  }

  /** The value `/Progreso Global\*\*:\s*(\d+)%/` captures when it matches at
      index i. Whitespace and digits are disjoint and '%' is neither, so a
      match must take the whole whitespace run and the whole digit run. */
  function ProgressAt(s: string, i: nat): Option<nat>
  {
    if !OccursAt(s, ProgressLabel, i) then None
    else
      var d := SkipWhitespace(s, i + |ProgressLabel|);
      var e := SkipDigits(s, d);
      if d < e && e < |s| && s[e] == '%' then Some(DigitsValue(s[d..e])) else None
  }

  /** The leftmost index at or after `from` where the expression matches. */
  function FirstProgress(s: string, from: nat): (r: Option<nat>)
    decreases |s| - from
    ensures r.Some? ==> from <= r.value && ProgressAt(s, r.value).Some?
    ensures r.Some? ==> forall k :: from <= k < r.value ==> ProgressAt(s, k).None?
    ensures r.None? ==> forall k :: from <= k ==> ProgressAt(s, k).None?
  {
    if from >= |s| then NoProgressPastEnd(s, from); None
    else if ProgressAt(s, from).Some? then Some(from)
    else FirstProgress(s, from + 1)
  }

  /** Past the end of the text the label cannot start. */
  lemma NoProgressPastEnd(s: string, from: nat)
    requires from >= |s|
    ensures forall k :: from <= k ==> ProgressAt(s, k).None?
  {
    forall k | from <= k
      ensures ProgressAt(s, k).None?
    {
      assert !OccursAt(s, ProgressLabel, k);
    }
  }

  /** The captured percentage, or 65 when the expression does not match. */
  function GlobalProgress(s: string): nat
  {
    match FirstProgress(s, 0)
    case Some(i) => ProgressAt(s, i).value
    case None => 65
  }

  /** Without the label anywhere, the default of 65 is reported. */
  lemma NoLabelMeansDefault(s: string)
    requires !Contains(s, ProgressLabel)
    ensures GlobalProgress(s) == 65
  {
  }

  /** A percentage written after the label is read back. */
  lemma {:induction false} ProgressReadsBack(n: nat, rest: string)
    ensures GlobalProgress(ProgressLabel + " " + NatToString(n) + "%" + rest) == n
  {
    var digits := NatToString(n);
    var s := ProgressLabel + " " + digits + "%" + rest;
    var L := |ProgressLabel|;
    assert s[..L] == ProgressLabel;
    assert OccursAt(s, ProgressLabel, 0);
    assert s[L] == ' ';
    assert SkipWhitespace(s, L) == SkipWhitespace(s, L + 1);
    assert s[L + 1 + |digits|] == '%';
    DigitsRunEnds(s, L + 1, digits);
    assert SkipWhitespace(s, L + 1) == L + 1 by {
      assert IsDigit(digits[0]);
      assert s[L + 1] == digits[0];
    }
    assert s[L + 1..L + 1 + |digits|] == digits;
    ParseRendered(n);
    assert ProgressAt(s, 0) == Some(n);
  }

  /** The digit run starting where `digits` is written ends right after it
      when the next character is not a digit. */
  lemma DigitsRunEnds(s: string, i: nat, digits: string)
    requires AllDigits(digits) && i + |digits| < |s| && s[i..i + |digits|] == digits
    requires !IsDigit(s[i + |digits|])
    ensures SkipDigits(s, i) == i + |digits|
    decreases |digits|
  {
    if digits != [] {
      assert s[i] == digits[0];
      assert s[i + 1..i + 1 + |digits[1..]|] == digits[1..];
      DigitsRunEnds(s, i + 1, digits[1..]);
    }
  }

  // --------------------------------------------------------- phase headers

  /** The status glyphs of phase headers: done, in progress, planned. */
  const Done: char := '✅'
  const InProgress: char := '🔄'
  const Planned: char := '📅'

  /** The text that precedes the number in a header with that glyph. */
  function HeaderPrefix(glyph: char): (p: string)
    ensures |p| == 11
  {
    "### " + [glyph] + " FASE "
  }

  /** Where a match of `/### <glyph> FASE \d+:/` that starts at i ends. */
  function HeaderEnd(s: string, glyph: char, i: nat): (r: Option<nat>)
    ensures r.Some? ==> i + 13 <= r.value <= |s|
  {
    if !OccursAt(s, HeaderPrefix(glyph), i) then None
    else
      var d := i + 11;
      var e := SkipDigits(s, d);
      if d < e && e < |s| && s[e] == ':' then Some(e + 1) else None
  }

  /** `(s.match(/### <glyph> FASE \d+:/g) || []).length` from index `from`:
      a global match resumes its search where the previous match ended. */
  function MatchCount(s: string, glyph: char, from: nat): nat
    decreases |s| - from
  {
    if from >= |s| then 0
    else match HeaderEnd(s, glyph, from)
      case Some(e) => 1 + MatchCount(s, glyph, e)
      case None => MatchCount(s, glyph, from + 1)
  }

  /** The number of indexes at or after `from` where a header starts. */
  function HeaderCount(s: string, glyph: char, from: nat): nat
    decreases |s| - from
  {
    if from >= |s| then 0
    else (if HeaderEnd(s, glyph, from).Some? then 1 else 0) + HeaderCount(s, glyph, from + 1)
  }

  /** One character that differs from the header prefix rules a header out. */
  lemma MismatchAt(s: string, glyph: char, k: nat, j: nat)
    requires j < 11 && k + j < |s| && s[k + j] != HeaderPrefix(glyph)[j]
    ensures HeaderEnd(s, glyph, k).None?
  {
    if k + 11 <= |s| {
      assert s[k..k + 11][j] == s[k + j];
    }
  }

  /** No header starts strictly inside another: only the first three
      characters of a header are '#', and a fourth would be needed. */
  lemma NoHeaderInside(s: string, glyph: char, i: nat, k: nat)
    requires glyph != '#'
    requires HeaderEnd(s, glyph, i).Some? && i < k < HeaderEnd(s, glyph, i).value
    ensures HeaderEnd(s, glyph, k).None?
  {
    var p := HeaderPrefix(glyph);
    assert s[i..i + 11] == p;
    if k == i + 1 {
      assert s[k + 2] == p[3];
      MismatchAt(s, glyph, k, 2);
    } else if k == i + 2 {
      assert s[k + 2] == p[4];
      MismatchAt(s, glyph, k, 2);
    } else if k < i + 11 {
      assert s[k] == p[k - i];
      MismatchAt(s, glyph, k, 0);
    } else {
      var e := SkipDigits(s, i + 11);
      assert k <= e;
      assert IsDigit(s[k]) || s[k] == ':';
      MismatchAt(s, glyph, k, 0);
    }
  }

  /** A stretch where no header starts adds nothing to the count. */
  lemma {:induction false} SkipEmptyStretch(s: string, glyph: char, lo: nat, hi: nat)
    requires lo <= hi
    requires forall k :: lo <= k < hi ==> HeaderEnd(s, glyph, k).None?
    ensures HeaderCount(s, glyph, lo) == HeaderCount(s, glyph, hi)
    decreases hi - lo
  {
    if lo < hi {
      SkipEmptyStretch(s, glyph, lo + 1, hi);
    }
  }

  /** Global matching finds every header: the count it reports is the number
      of places where a header starts. */
  lemma {:induction false} MatchesAreHeaders(s: string, glyph: char, from: nat)
    requires glyph != '#'
    ensures MatchCount(s, glyph, from) == HeaderCount(s, glyph, from)
    decreases |s| - from
  {
    if from < |s| {
      match HeaderEnd(s, glyph, from)
      case Some(e) =>
        forall k | from + 1 <= k < e ensures HeaderEnd(s, glyph, k).None? {
          NoHeaderInside(s, glyph, from, k);
        }
        SkipEmptyStretch(s, glyph, from + 1, e);
        MatchesAreHeaders(s, glyph, e);
      case None =>
        MatchesAreHeaders(s, glyph, from + 1);
    }
  }

  // --------------------------------------------------------------- status

  /** The two phases the handler can report as current. */
  datatype Phase = UxOptimizada | RoadmapInteligente

  function PhaseName(p: Phase): string
  {
    match p
    case UxOptimizada => "FASE 7: UX OPTIMIZADA"
    case RoadmapInteligente => "FASE 8: ROADMAP INTELIGENTE"
  }

  /** `currentPhase.split(': ')[1]`: the part of the name after its number. */
  function PhaseTitle(p: Phase): string
  {
    match p
    case UxOptimizada => "UX OPTIMIZADA"
    case RoadmapInteligente => "ROADMAP INTELIGENTE"
  }

  /** `s.split(sep)[1]`, or None (`undefined`) when `sep` does not occur. */
  function SecondField(s: string, sep: string): Option<string>
    requires sep != []
  {
    match IndexFrom(s, sep, 0)
    case None => None
    case Some(i) =>
      var rest := s[i + |sep|..];
      match IndexFrom(rest, sep, 0)
      case None => Some(rest)
      case Some(j) => Some(rest[..j])
  }

  /** The title is what splitting the name at ": " leaves second. */
  lemma PhaseTitleIsSecondField(p: Phase)
    ensures SecondField(PhaseName(p), ": ") == Some(PhaseTitle(p))
  {
    var name, title := PhaseName(p), PhaseTitle(p);
    assert name == "FASE " + [name[5]] + ": " + title;
    FirstSeparator("FASE " + [name[5]], title);
  }

  /** Splitting `head + ": " + tail` where neither part holds a ':' gives `tail`
      second. */
  lemma FirstSeparator(head: string, tail: string)
    requires ':' !in head && ':' !in tail
    ensures SecondField(head + ": " + tail, ": ") == Some(tail)
  {
    var s := head + ": " + tail;
    forall k | 0 <= k < |head| ensures !OccursAt(s, ": ", k) {
      assert s[k] == head[k];
    }
    assert OccursAt(s, ": ", |head|);
    assert IndexFrom(s, ": ", 0) == Some(|head|) by {
      IndexIsFirst(s, ": ", |head|);
    }
    assert s[|head| + 2..] == tail;
    forall j: nat ensures !OccursAt(tail, ": ", j) {
      if j + 2 <= |tail| {
        assert tail[j..j + 2][0] == tail[j];
      }
    }
  }

  /** The current phase: phase 8 by default and when it is marked in
      progress, otherwise phase 7 when that one is. */
  function CurrentPhase(s: string): Phase
  {
    var p := RoadmapInteligente;
    var p := if Contains(s, "🔄 FASE 7") then UxOptimizada else p;
    if Contains(s, "🔄 FASE 8") then RoadmapInteligente else p
  }

  lemma CurrentPhaseCases(s: string)
    ensures CurrentPhase(s) == UxOptimizada <==> Contains(s, "🔄 FASE 7") && !Contains(s, "🔄 FASE 8")
  {
  }

  /** The next milestone: phase 9 when the roadmap mentions it anywhere. */
  function NextMilestone(s: string): string
  {
    if Contains(s, "FASE 9") then "FASE 9: TESTING COMPLETO" else "Optimización final"
  }

  /** The milestone is phase 9 exactly when the text mentions "FASE 9", and
      the final optimisation exactly when it does not. */
  lemma NextMilestoneCases(s: string)
    ensures NextMilestone(s) == "FASE 9: TESTING COMPLETO" <==> Contains(s, "FASE 9")
    ensures NextMilestone(s) == "Optimización final" <==> !Contains(s, "FASE 9")
  {
  }

  /** A roadmap listing phase 9 as planned names it as the next milestone,
      whatever surrounds the header. */
  lemma PlannedNineIsNext(before: string, after: string)
    ensures NextMilestone(before + "### 📅 FASE 9:" + after) == "FASE 9: TESTING COMPLETO"
  {
    var s := before + "### 📅 FASE 9:" + after;
    assert OccursAt(s, "FASE 9", |before| + 6);
  }

  /** `Math.ceil(remaining * 0.5)`: half a week per phase, rounded up. */
  function EstimatedWeeks(remaining: nat): (weeks: nat)
    ensures 2 * weeks >= remaining && 2 * weeks <= remaining + 1
  {
    (remaining + 1) / 2
  }

  /** Everything the report shows that depends on the roadmap. */
  datatype Status = Status(
    globalProgress: nat,
    completed: nat,
    inProgress: nat,
    pending: nat,
    current: Phase,
    nextMilestone: string,
    weeks: nat)

  function RoadmapStatus(s: string): (st: Status)
    ensures st.completed == HeaderCount(s, Done, 0)
    ensures st.inProgress == HeaderCount(s, InProgress, 0)
    ensures st.pending == HeaderCount(s, Planned, 0)
    ensures 2 * st.weeks >= st.inProgress + st.pending >= 2 * st.weeks - 1
  {
    MatchesAreHeaders(s, Done, 0);
    MatchesAreHeaders(s, InProgress, 0);
    MatchesAreHeaders(s, Planned, 0);
    var completed := MatchCount(s, Done, 0);
    var inProgress := MatchCount(s, InProgress, 0);
    var pending := MatchCount(s, Planned, 0);
    Status(GlobalProgress(s), completed, inProgress, pending, CurrentPhase(s), NextMilestone(s),
           EstimatedWeeks(inProgress + pending))
  }

  /** The progress, the phase and the milestone the status reports: the
      captured percentage (or 65), and the phase and milestone the
      `includes` tests choose. */
  lemma StatusFields(s: string)
    ensures var st := RoadmapStatus(s);
      && st.globalProgress == GlobalProgress(s)
      && (st.current == UxOptimizada <==> Contains(s, "🔄 FASE 7") && !Contains(s, "🔄 FASE 8"))
      && (st.nextMilestone == "FASE 9: TESTING COMPLETO" <==> Contains(s, "FASE 9"))
  {
    CurrentPhaseCases(s);
    NextMilestoneCases(s);
  }

  // --------------------------------------------------------------- report

  function Repeat(c: char, n: nat): (r: string)
    ensures |r| == n && forall k :: 0 <= k < n ==> r[k] == c
  {
    if n == 0 then [] else [c] + Repeat(c, n - 1)
  }

  /** `Math.max(0, 10 - Math.floor(progress / 10))`. */
  function EmptyCells(progress: nat): nat
  {
    if progress / 10 >= 10 then 0 else 10 - progress / 10
  }

  /** The progress bar: seven filled cells, then the empty cells. */
  function ProgressBar(progress: nat): (bar: string)
    ensures |bar| == 7 + EmptyCells(progress)
    ensures forall k :: 0 <= k < 7 ==> bar[k] == '▓'
    ensures forall k :: 7 <= k < |bar| ==> bar[k] == '░'
  {
    "▓▓▓▓▓▓▓" + Repeat('░', EmptyCells(progress))
  }

  /** The empty cells shrink by one for every ten points of progress, and
      vanish from 100 on. */
  lemma EmptyCellsShrink(progress: nat)
    ensures EmptyCells(progress) <= 10
    ensures progress >= 100 <==> EmptyCells(progress) == 0
    ensures progress < 100 ==> EmptyCells(progress + 10) + 1 == EmptyCells(progress)
  {
  }

  /** "s" unless the number is one. */
  function Plural(n: nat): string
  {
    if n != 1 then "s" else ""
  }

  function Fraction(part: nat, total: nat): string
  {
    NatToString(part) + "/" + NatToString(total)
  }

  /** The status report; `today` is the locale date of the request. */
  function Report(st: Status, today: string): string
  {
    var total := st.completed + st.inProgress + st.pending;
    var p := NatToString(st.globalProgress);
    "🗺️ **ROADMAP STATUS - Proyecto MICMAC**\n"
    + "═══════════════════════════════════════════════════\n\n"
    + "📈 **PROGRESO GLOBAL**: " + p + "%\n"
    + ProgressBar(st.globalProgress) + " " + p + "%\n\n"
    + "🎯 **FASE ACTUAL**: " + PhaseName(st.current) + "\n"
    + "🚀 **PRÓXIMA MILESTONE**: " + st.nextMilestone + "\n\n"
    + "📊 **DISTRIBUCIÓN DE FASES**:\n"
    + "┌─────────────────────────────────────────────┐\n"
    + "│ ✅ Completadas:  " + Fraction(st.completed, total) + " fases              │\n"
    + "│ 🔄 En progreso:  " + Fraction(st.inProgress, total) + " fases              │  \n"
    + "│ 📅 Pendientes:   " + Fraction(st.pending, total) + " fases              │\n"
    + "│ ⏰ Estimación:   " + NatToString(st.weeks) + " semana" + Plural(st.weeks)
    + " restante" + Plural(st.weeks) + "      │\n"
    + "└─────────────────────────────────────────────┘\n\n"
    + "🔥 **FASES RECIÉN COMPLETADAS**:\n"
    + "• ✅ FASE 6: Sistema MCP (100%)\n"
    + "• ✅ FASE 5: Sistema MIC MAC (85%)\n"
    + "• ✅ FASE 4C: CRUD Expertos (100%)\n\n"
    + "⚡ **FASES ACTIVAS**:\n"
    + "• 🔄 FASE 7: UX Optimizada (35%)\n"
    + "• 🔄 FASE 8: Roadmap Inteligente (70%)\n\n"
    + "🎯 **PRÓXIMAS PRIORIDADES**:\n"
    + "• 📅 FASE 9: Testing Completo\n"
    + "• 📅 FASE 10: Optimización\n"
    + "• 📅 FASE 11: Documentación\n\n"
    + "💡 **INSIGHTS**:\n"
    + "• Proyecto avanzado (" + p + "% completado)\n"
    + "• " + NatToString(st.completed) + " fases ya completadas exitosamente\n"
    + "• Ritmo sostenido de desarrollo\n"
    + "• Sistema MCP optimizando eficiencia\n\n"
    + "═══════════════════════════════════════════════════\n"
    + "📊 Roadmap actualizado: " + today
  }
}
