/** A small log run through the whole model: two records, one repeated line,
    and (in the first file) one line that is not a log record. */
module Samples {
  import opened Results
  import opened Text
  import opened Timestamps
  import opened TimeWindow
  import opened LineMatcher
  import opened Extractor
  import opened Counter
  import opened Report
  import opened Pipeline

  const InfoRecord := Record("2023-01-01 10:00:00.123", " 42 ", "INFO")
  const ErrorRecord := Record("2023-01-01 10:00:01.456", " 43 ", "ERROR")

  const InfoLine := InfoRecord.timestamp + InfoRecord.separator + InfoRecord.level + " foo\n"
  const ErrorLine := ErrorRecord.timestamp + ErrorRecord.separator + ErrorRecord.level + " bar\n"

  lemma InfoLineMatches()
    ensures Match(InfoLine) == Some(InfoRecord)
  {
    var r := InfoRecord;
    assert IsStamp(r.timestamp) by {
      var ts := r.timestamp;
      assert forall i :: 0 <= i < 23 ==>
        if StampShape[i] == 'D' then IsDigit(ts[i]) else ts[i] == StampShape[i];
    }
    assert IsSeparator(r.separator);
    assert r.timestamp + r.separator + r.level <= InfoLine;
    MatchComplete(InfoLine, r);
  }

  lemma ErrorLineMatches()
    ensures Match(ErrorLine) == Some(ErrorRecord)
  {
    var r := ErrorRecord;
    assert IsStamp(r.timestamp) by {
      var ts := r.timestamp;
      assert forall i :: 0 <= i < 23 ==>
        if StampShape[i] == 'D' then IsDigit(ts[i]) else ts[i] == StampShape[i];
    }
    assert IsSeparator(r.separator);
    assert r.timestamp + r.separator + r.level <= ErrorLine;
    MatchComplete(ErrorLine, r);
  }

  /** The log of four lines whose third line is not a log record. */
  const SampleFile := [InfoLine, ErrorLine, "not a log line\n", InfoLine]

  /** The same log without the stray line: the first line appears twice. */
  const CleanFile := [InfoLine, ErrorLine, InfoLine]

  /** Three log lines, the first repeated last, give two records. */
  lemma ThreeLines(a: string, b: string, ra: Record, rb: Record)
    requires Match(a) == Some(ra) && Match(b) == Some(rb)
    ensures Extraction([a, b, a]) == Ok({ra, rb})
  {
    StepOk([], a, ra);
    assert [] + [a] == [a];
    StepOk([a], b, rb);
    assert [a] + [b] == [a, b];
    StepOk([a, b], a, ra);
    assert [a, b] + [a] == [a, b, a];
    assert {} + {ra} + {rb} + {ra} == {ra, rb};
  }

  /** A stray third line stops extraction at its own index. */
  lemma StrayThirdLine(a: string, b: string, c: string, d: string, ra: Record, rb: Record)
    requires Match(a) == Some(ra) && Match(b) == Some(rb) && Match(c) == None
    ensures Extraction([a, b, c, d]) == Err(LineDidNotMatch(2))
  {
    StepOk([], a, ra);
    assert [] + [a] == [a];
    StepOk([a], b, rb);
    assert [a] + [b] == [a, b];
    StepErr([a, b], c);
    var all := [a, b, c, d];
    assert all[..3] == [a, b] + [c];
    FailureIsFinal(all, 3);
  }

  /** The stray third line stops the run before anything is counted. */
  lemma SampleFileAborts()
    ensures Analyze(SampleFile, None) == Err(LineDidNotMatch(2))
  {
    InfoLineMatches();
    ErrorLineMatches();
    assert Match("not a log line\n") == None;
    StrayThirdLine(InfoLine, ErrorLine, "not a log line\n", InfoLine, InfoRecord, ErrorRecord);
  }

  /** The repeated line collapses into one record. */
  lemma CleanFileRecords()
    ensures Extraction(CleanFile) == Ok({InfoRecord, ErrorRecord})
  {
    InfoLineMatches();
    ErrorLineMatches();
    ThreeLines(InfoLine, ErrorLine, InfoRecord, ErrorRecord);
  }

  /** Without a window: one INFO and one ERROR record. */
  lemma CleanFileFullTime()
    ensures Analyze(CleanFile, None) == Ok(Summary(Counts(0, 0, 1, 0, 1), "full time"))
  {
    CleanFileRecords();
    TokensDistinct();
    var recs := {InfoRecord, ErrorRecord};
    assert Bucket(recs, Passes(None), "INFO") == {InfoRecord};
    assert Bucket(recs, Passes(None), "ERROR") == {ErrorRecord};
    assert Bucket(recs, Passes(None), "TRACE") == {};
    assert Bucket(recs, Passes(None), "DEBUG") == {};
    assert Bucket(recs, Passes(None), "WARNING") == {};
  }

  /** What the run prints and puts into the pie chart for those counts. */
  lemma CleanFileReport()
    ensures PieValues(Counts(0, 0, 1, 0, 1)) == "[0, 0, 1, 0, 1]"
  {
    assert DigitChar(0) == '0' && DigitChar(1) == '1';
    assert Decimal(0) == "0" && Decimal(1) == "1";
  }

  /** The window of the second run: the first second after ten o'clock. */
  const Start := DateTime(2023, 1, 1, 10, 0, 0, 0)
  const End := DateTime(2023, 1, 1, 10, 0, 1, 0)

  /** An INFO record inside a window and an ERROR record outside it count as
      one INFO. */
  lemma InfoInsideErrorOutside(a: Record, b: Record, w: Window)
    requires a.level == "INFO" && b.level == "ERROR"
    requires StampsParse({a, b}) && Counted(a, Some(w)) && !Counted(b, Some(w))
    ensures Tally({a, b}, Some(w)) == Ok(Counts(0, 0, 1, 0, 0))
  {
    TokensDistinct();
    var recs, keep := {a, b}, Passes(Some(w));
    assert keep(a) && !keep(b);
    assert Bucket(recs, keep, "INFO") == {a};
    assert Bucket(recs, keep, "ERROR") == {};
    assert Bucket(recs, keep, "TRACE") == {};
    assert Bucket(recs, keep, "DEBUG") == {};
    assert Bucket(recs, keep, "WARNING") == {};
  }

  /** The INFO record at 10:00:00.123 falls inside the window; the ERROR
      record at 10:00:01.456 falls past its end. */
  lemma WindowSplitsRecords()
    ensures StampsParse({InfoRecord, ErrorRecord})
    ensures Counted(InfoRecord, Some(Window(Start, End)))
    ensures !Counted(ErrorRecord, Some(Window(Start, End)))
  {
    MillisecondsAsMicroseconds();
    MillisecondsPastTheSecond();
  }

  /** A windowed run whose bounds are not reversed reports what the tally of
      the extracted records gives. */
  lemma WindowedRun(lines: seq<string>, start: DateTime, end: DateTime, recs: set<Record>, c: Counts)
    requires IsValid(start) && IsValid(end) && !Before(end, start)
    requires Extraction(lines) == Ok(recs) && Tally(recs, Some(Window(start, end))) == Ok(c)
    ensures WellFormedTime(Some((start, end)))
    ensures Analyze(lines, Some((start, end))) == Ok(Summary(c, IntervalText(Some(Window(start, end)))))
  {
  }

  /** So the windowed run counts a single INFO record. */
  lemma CleanFileInWindow()
    ensures WellFormedTime(Some((Start, End)))
    ensures Analyze(CleanFile, Some((Start, End))).Ok?
    ensures Analyze(CleanFile, Some((Start, End))).value.counts == Counts(0, 0, 1, 0, 0)
  {
    CleanFileRecords();
    WindowSplitsRecords();
    InfoInsideErrorOutside(InfoRecord, ErrorRecord, Window(Start, End));
    WindowedRun(CleanFile, Start, End, {InfoRecord, ErrorRecord}, Counts(0, 0, 1, 0, 0));
  }
}
