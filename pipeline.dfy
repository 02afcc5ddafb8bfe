/** One run of the parser (parser.py:32-96) with the command line already
    parsed and the log already split into lines: validate the window, extract
    and deduplicate the records, count them, and produce the report values. */
module Pipeline {
  import opened Results
  import opened Timestamps
  import opened TimeWindow
  import opened LineMatcher
  import opened Extractor
  import opened Counter
  import opened Report

  /** What the run prints and writes: the five counts and the interval text. */
  datatype Summary = Summary(counts: Counts, interval: string)

  /** The bounds of `-t`, when given, are those of a window with valid bounds. */
  predicate WellFormedTime(time: Option<(DateTime, DateTime)>) {
    time.Some? ==> ValidBounds(Some(Window(time.value.0, time.value.1)))
  }

  /** The outcome of a run on the log `lines` with the `-t` bounds `time`,
      in the order the script does its steps. */
  function Analyze(lines: seq<string>, time: Option<(DateTime, DateTime)>): Result<Summary>
    requires WellFormedTime(time)
  {
    match CheckWindow(time)
    case Err(e) => Err(e)
    case Ok(w) =>
      match Extraction(lines)
      case Err(e) => Err(e)
      case Ok(recs) =>
        match Tally(recs, w)
        case Err(e) => Err(e)
        case Ok(c) => Ok(Summary(c, IntervalText(w)))
  }

  /** The script's top level: validate the window, read the records, run the
      counting loop that matches the window, and build the report values. */
  method Run(lines: seq<string>, time: Option<(DateTime, DateTime)>) returns (res: Result<Summary>)
    requires WellFormedTime(time)
    ensures res == Analyze(lines, time)
  {
    var window := CheckWindow(time);
    if window.Err? {
      return Err(window.error);
    }
    var recs := Extract(lines);
    if recs.Err? {
      return Err(recs.error);
    }
    var counts: Result<Counts>;
    if window.value.None? {
      var c := CountFullTime(recs.value);
      counts := Ok(c);
    } else {
      counts := CountInWindow(recs.value, window.value.value);
    }
    if counts.Err? {
      return Err(counts.error);
    }
    res := Ok(Summary(counts.value, IntervalText(window.value)));
  }

  /** START after END is refused whatever the log holds, before any line is read. */
  lemma ReversedWindowFailsFirst(lines: seq<string>, start: DateTime, end: DateTime)
    requires IsValid(start) && IsValid(end) && Before(end, start)
    ensures Analyze(lines, Some((start, end))) == Err(WindowReversed)
  {
  }

  /** Any line that does not match makes the whole run fail, naming the first
      such line, whatever the window; no counts are produced. */
  lemma UnmatchedLineIsFatal(lines: seq<string>, time: Option<(DateTime, DateTime)>, i: nat)
    requires WellFormedTime(time) && CheckWindow(time).Ok?
    requires i < |lines| && Match(lines[i]).None?
    ensures Analyze(lines, time).Err? && Analyze(lines, time).error.LineDidNotMatch?
    ensures Analyze(lines, time).error.line <= i
  {
    ExtractionFails(lines);
  }

  /** Without a window the run succeeds exactly when every line matches; then
      TRACE and DEBUG are 0, the counts add up to the number of distinct
      records, and the interval is `full time`. */
  lemma FullTimeRun(lines: seq<string>)
    ensures Analyze(lines, None).Ok? <==> forall i :: 0 <= i < |lines| ==> Match(lines[i]).Some?
    ensures Analyze(lines, None).Ok? ==>
      var s := Analyze(lines, None).value;
      s.counts.traces == 0 && s.counts.debugs == 0 &&
      Total(s.counts) == |Extraction(lines).value| && s.interval == "full time"
  {
    ExtractionFails(lines);
    if Extraction(lines).Ok? {
      var recs := Extraction(lines).value;
      OnlyCapturedLevels(lines);
      FullTimeCountsEveryRecord(recs);
      TraceAndDebugStayZero(recs, None);
    }
  }

  /** With a window, a successful run counts each distinct record strictly
      inside it once, in the counter of its level; TRACE and DEBUG stay 0. */
  lemma WindowRun(lines: seq<string>, start: DateTime, end: DateTime)
    requires IsValid(start) && IsValid(end)
    requires Analyze(lines, Some((start, end))).Ok?
    ensures
      var s := Analyze(lines, Some((start, end))).value;
      var w := Window(start, end);
      s.counts.traces == 0 && s.counts.debugs == 0 &&
      Total(s.counts) == |set r | r in Extraction(lines).value && Counted(r, Some(w))|
  {
    var recs := Extraction(lines).value;
    var w := Some(Window(start, end));
    OnlyCapturedLevels(lines);
    TotalIsRecordsCounted(recs, w);
    TraceAndDebugStayZero(recs, w);
  }

  /** START equal to END is accepted, and then nothing is counted. */
  lemma EqualBoundsRun(lines: seq<string>, t: DateTime)
    requires IsValid(t)
    requires Analyze(lines, Some((t, t))).Ok?
    ensures Analyze(lines, Some((t, t))).value.counts == Counts(0, 0, 0, 0, 0)
  {
    EqualBoundsCountNothing(Extraction(lines).value, Window(t, t));
  }

  /** With a window, the run succeeds exactly when START is not after END,
      every line matches and every extracted timestamp is a real date and
      time. */
  lemma WindowRunSucceeds(lines: seq<string>, start: DateTime, end: DateTime)
    requires IsValid(start) && IsValid(end)
    ensures Analyze(lines, Some((start, end))).Ok? <==>
      !Before(end, start) && Extraction(lines).Ok? && StampsParse(Extraction(lines).value)
    ensures Analyze(lines, Some((start, end))).Ok? ==>
      forall i :: 0 <= i < |lines| ==> Match(lines[i]).Some?
  {
    ExtractionFails(lines);
  }
}
