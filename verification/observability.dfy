/** Console debugging and generation tracking: the `DEBUG_LLM` switch, the
    layout of a debug box's content lines, and the per-generation records
    of `LLMTracker` with the totals `end_trace` reports. */
module Observability {
  import opened Core
  import opened Text

  // ---------------------------------------------------------------------
  // Initialisation.
  // ---------------------------------------------------------------------

  /** How `Laminar.initialize` went, when it was reached. */
  datatype LaminarOutcome = Initialized | NotInstalled | InitFailed(message: string)

  datatype Setup = Setup(debugMode: bool, tracing: bool)

  /** Debug mode follows `DEBUG_LLM` alone; tracing needs a non-empty
      `LAMINAR_API_KEY` and a successful initialisation. */
  function InitObservability(debugLlm: Option<string>, laminarKey: Option<string>, laminar: LaminarOutcome): (s: Setup)
    ensures s.debugMode <==> FlagEnabled(debugLlm)
    ensures s.tracing <==> laminarKey.Some? && laminarKey.value != "" && laminar.Initialized?
  {
    var debug := FlagEnabled(debugLlm);
    if laminarKey.None? || laminarKey.value == "" then Setup(debug, false)
    else Setup(debug, laminar == Initialized)
  }

  // ---------------------------------------------------------------------
  // Debug boxes.
  // ---------------------------------------------------------------------

  const Width := 68
  const Kept := 65

  /** A line as shown in the box: longer than 68 characters, it keeps its
      first 65 and ends in "...". */
  function FitLine(line: string): (r: string)
    ensures |r| <= Width
    ensures |line| <= Width ==> r == line
    ensures |line| > Width ==> |r| == Width && r[..Kept] == line[..Kept] && r[Kept..] == "..."
  {
    if |line| > Width then line[..Kept] + "..." else line
  }

  /** `s[:n]` for any integer `n`: a negative `n` counts from the end. */
  function PrefixSlice<T>(s: seq<T>, n: int): (r: seq<T>)
    ensures n >= 0 ==> r == Take(s, n)
    ensures n < 0 ==> |r| == (if |s| + n > 0 then |s| + n else 0)
    ensures r == s[..|r|]
  {
    if n >= 0 then Take(s, n)
    else if |s| + n > 0 then s[..|s| + n]
    else []
  }

  function MoreLines(k: nat): string {
    "... (" + NatToString(k) + " more lines)"
  }

  /** The lines to show: all of them, or, with a non-zero limit that the
      content exceeds, the first `maxLines` and a count of the rest. */
  function LimitLines(lines: seq<string>, maxLines: Option<int>): seq<string> {
    if maxLines.Some? && maxLines.value != 0 && |lines| > maxLines.value
    then PrefixSlice(lines, maxLines.value) + [MoreLines(|lines| - maxLines.value)]
    else lines
  }

  /** The content lines of a debug box, or `None` when debug mode is off
      and nothing is printed. */
  function DebugLines(debugMode: bool, content: string, maxLines: Option<int>): (r: Option<seq<string>>)
    ensures r.None? <==> !debugMode
  {
    if !debugMode then None
    else
      var shown := LimitLines(Split(content, '\n'), maxLines);
      Some(seq(|shown|, i requires 0 <= i < |shown| => FitLine(shown[i])))
  }

  /** The fitted form of a prefix of lines followed by a last line. */
  lemma ShownLines(shown: seq<string>, kept: seq<string>, more: string)
    requires shown == kept + [more]
    ensures var fitted := seq(|shown|, i requires 0 <= i < |shown| => FitLine(shown[i]));
      && |fitted| == |kept| + 1
      && (forall i :: 0 <= i < |kept| ==> fitted[i] == FitLine(kept[i]))
      && fitted[|kept|] == FitLine(more)
  {
  }

  /** A positive limit that the lines exceed keeps that many lines and
      adds the count of the rest. */
  lemma LimitCut(lines: seq<string>, m: nat)
    requires 0 < m < |lines|
    ensures LimitLines(lines, Some(m)) == lines[..m] + [MoreLines(|lines| - m)]
  {
  }

  /** Without a limit (none, or zero) every line of the content is shown,
      each fitted to the box. */
  lemma UnlimitedShowsAll(content: string, maxLines: Option<int>)
    requires maxLines.None? || maxLines.value == 0
    ensures var r := DebugLines(true, content, maxLines);
      var lines := Split(content, '\n');
      && r.Some? && |r.value| == |lines|
      && forall i :: 0 <= i < |lines| ==> r.value[i] == FitLine(lines[i])
  {
  }

  /** With a positive limit the content exceeds, the first `m` lines are
      shown, fitted, followed by the count of the lines left out. */
  lemma LimitedShowsPrefix(content: string, m: nat)
    requires 0 < m < |Split(content, '\n')|
    ensures var r := DebugLines(true, content, Some(m));
      var lines := Split(content, '\n');
      && r.Some? && |r.value| == m + 1
      && (forall i :: 0 <= i < m ==> r.value[i] == FitLine(lines[i]))
      && r.value[m] == FitLine(MoreLines(|lines| - m))
  {
    var lines := Split(content, '\n');
    var shown := LimitLines(lines, Some(m));
    LimitCut(lines, m);
    ShownLines(shown, lines[..m], MoreLines(|lines| - m));
  }

  /** Content with no more lines than the limit is shown as if there were
      no limit. */
  lemma WithinLimitShowsAll(content: string, m: nat)
    requires |Split(content, '\n')| <= m
    ensures DebugLines(true, content, Some(m)) == DebugLines(true, content, None)
  {
  }

  /** When no line is wider than the box and no limit applies, the box
      shows exactly the content: joining its lines gives the content back. */
  lemma NarrowContentShownVerbatim(content: string)
    requires forall i :: 0 <= i < |Split(content, '\n')| ==> |Split(content, '\n')[i]| <= Width
    ensures var r := DebugLines(true, content, None);
      r.Some? && Join(r.value, '\n') == content
  {
    var lines := Split(content, '\n');
    var r := DebugLines(true, content, None);
    assert r.value == lines;
    JoinSplit(content, '\n');
  }

  /** A negative limit is truthy and always exceeded: it drops that many
      lines from the end, and the count it reports is the number of lines
      plus the absolute value of the limit. */
  lemma NegativeLimit(content: string, m: int)
    requires m < 0
    ensures var r := DebugLines(true, content, Some(m));
      var lines := Split(content, '\n');
      && r.Some?
      && |r.value| == (if |lines| + m > 0 then |lines| + m else 0) + 1
      && r.value[|r.value| - 1] == FitLine(MoreLines(|lines| - m))
  {
  }

  /** Fitting a shown line again changes nothing. */
  lemma FitLineIdempotent(line: string)
    ensures FitLine(FitLine(line)) == FitLine(line)
  {
  }

  // ---------------------------------------------------------------------
  // Tracking generations.
  // ---------------------------------------------------------------------

  /** One stored generation: its name and the token counts as given
      (`None` when not reported). */
  datatype Generation = Generation(name: string, inputTokens: Option<int>, outputTokens: Option<int>)

  datatype Tracker = Tracker(traceName: string, generations: seq<Generation>, currentName: Option<string>)

  function CreateTracker(traceName: string): (t: Tracker)
    ensures |t.generations| == 0 && t.currentName.None? && t.traceName == traceName
  {
    Tracker(traceName, [], None)
  }

  /** Starting a generation only remembers its name. */
  function StartGeneration(t: Tracker, name: string): (t': Tracker)
    ensures t'.generations == t.generations && t'.currentName == Some(name) && t'.traceName == t.traceName
  {
    t.(currentName := Some(name))
  }

  /** `self.current_gen_name or 'Unknown'`. */
  function GenName(t: Tracker): string {
    if t.currentName.Some? && t.currentName.value != "" then t.currentName.value else "Unknown"
  }

  /** Ending a generation appends exactly one record and leaves the current
      name in place. */
  function EndGeneration(t: Tracker, inputTokens: Option<int>, outputTokens: Option<int>): (t': Tracker)
    ensures |t'.generations| == |t.generations| + 1
    ensures t'.generations[..|t.generations|] == t.generations
    ensures t'.generations[|t.generations|] == Generation(GenName(t), inputTokens, outputTokens)
    ensures t'.currentName == t.currentName && t'.traceName == t.traceName
  {
    t.(generations := t.generations + [Generation(GenName(t), inputTokens, outputTokens)])
  }

  /** Which token count a total is about. */
  datatype Count = InputCount | OutputCount

  /** `g.get(...) or 0`: an unreported count adds nothing. */
  function TokensOf(g: Generation, c: Count): int {
    var v := if c == InputCount then g.inputTokens else g.outputTokens;
    v.GetOr(0)
  }

  /** The total over the records, first to last. */
  function Total(gs: seq<Generation>, c: Count): int {
    if |gs| == 0 then 0 else TokensOf(gs[0], c) + Total(gs[1..], c)
  }

  datatype Summary = Summary(generations: nat, inputTokens: int, outputTokens: int)

  function EndTrace(t: Tracker): (s: Summary)
    ensures s.generations == |t.generations|
  {
    Summary(|t.generations|, Total(t.generations, InputCount), Total(t.generations, OutputCount))
  }

  /** A total over appended records is the sum of the two totals. */
  lemma {:induction false} TotalAppend(a: seq<Generation>, b: seq<Generation>, c: Count)
    ensures Total(a + b, c) == Total(a, c) + Total(b, c)
  {
    if |a| == 0 {
      assert a + b == b;
    } else {
      assert (a + b)[0] == a[0];
      assert (a + b)[1..] == a[1..] + b;
      TotalAppend(a[1..], b, c);
    }
  }

  /** Ending a generation adds one to the count and the given tokens, or
      nothing for an unreported count, to each total. */
  lemma EndGenerationTotals(t: Tracker, inputTokens: Option<int>, outputTokens: Option<int>)
    ensures var before := EndTrace(t);
      var after := EndTrace(EndGeneration(t, inputTokens, outputTokens));
      && after.generations == before.generations + 1
      && after.inputTokens == before.inputTokens + inputTokens.GetOr(0)
      && after.outputTokens == before.outputTokens + outputTokens.GetOr(0)
  {
    var g := Generation(GenName(t), inputTokens, outputTokens);
    TotalAppend(t.generations, [g], InputCount);
    TotalAppend(t.generations, [g], OutputCount);
  }

  /** One generation of a session: its name and reported counts. */
  datatype Step = Step(name: string, inputTokens: Option<int>, outputTokens: Option<int>)

  /** Starts and ends one generation per step, in order. */
  function RunSteps(t: Tracker, steps: seq<Step>): Tracker
    decreases |steps|
  {
    if |steps| == 0 then t
    else RunSteps(EndGeneration(StartGeneration(t, steps[0].name), steps[0].inputTokens, steps[0].outputTokens), steps[1..])
  }

  function StepTotal(steps: seq<Step>, c: Count): int {
    if |steps| == 0 then 0
    else (if c == InputCount then steps[0].inputTokens else steps[0].outputTokens).GetOr(0) + StepTotal(steps[1..], c)
  }

  /** After a session the trace counts one generation per step and its
      totals grow by exactly the reported counts, unreported ones adding
      nothing. */
  lemma {:induction false} SessionTotals(t: Tracker, steps: seq<Step>)
    ensures var before := EndTrace(t);
      var after := EndTrace(RunSteps(t, steps));
      && after.generations == before.generations + |steps|
      && after.inputTokens == before.inputTokens + StepTotal(steps, InputCount)
      && after.outputTokens == before.outputTokens + StepTotal(steps, OutputCount)
    decreases |steps|
  {
    if |steps| > 0 {
      var s := steps[0];
      var t1 := EndGeneration(StartGeneration(t, s.name), s.inputTokens, s.outputTokens);
      EndGenerationTotals(StartGeneration(t, s.name), s.inputTokens, s.outputTokens);
      SessionTotals(t1, steps[1..]);
    }
  }

  /** A generation ended twice without a new start is stored twice under
      the same name; one ended with no start at all, or with an empty
      name, is stored as "Unknown". */
  lemma NamesOfRecords(t: Tracker, name: string, i1: Option<int>, o1: Option<int>, i2: Option<int>, o2: Option<int>)
    ensures var t1 := EndGeneration(StartGeneration(t, name), i1, o1);
      var t2 := EndGeneration(t1, i2, o2);
      && t2.generations[|t.generations|].name == t2.generations[|t.generations| + 1].name
      && t2.generations[|t.generations|].name == (if name == "" then "Unknown" else name)
    ensures EndGeneration(CreateTracker(name), i1, o1).generations == [Generation("Unknown", i1, o1)]
  {
  }
}
