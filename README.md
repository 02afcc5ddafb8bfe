# Neutron OVS agent log parser, modelled in Dafny

`parser.py` is a command-line script. It reads a Neutron OVS agent log and
keeps the three groups (timestamp, separator, level) that its pattern captures
from each line. It turns the captured groups into a set, which removes
duplicates. It then counts the records of each level, for the whole log or
only for the records whose timestamp lies strictly inside an optional
`-t START END` interval. Finally it prints the five counts and writes them,
with a description of the interval, into an HTML page with a pie chart.

The model follows the script step by step:

| module | file | what it holds |
|---|---|---|
| `Results` | results.dfy | `Option`, `Result` and the three ways a run can fail |
| `Text` | text.dfy | `\d` and `\s`, decimal digit strings, zero padding, `str(n)` |
| `Timestamps` | timestamps.dfy | datetimes, the calendar, `strptime` on a captured timestamp, `strftime` of a bound |
| `LineMatcher` | line_matcher.dfy | the log pattern applied with `re.match` |
| `Extractor` | extractor.dfy | the reading loop and the set of groups |
| `TimeWindow` | time_window.dfy | the `-t` interval check and the strict window test |
| `Counter` | counter.dfy | the two counting loops over the record set |
| `Report` | report.dfy | the printed counts, the pie values and the interval text |
| `Pipeline` | pipeline.dfy | one whole run, as a function and as a method |
| `Samples` | samples.dfy | a small log run through the whole model |

The two loops that change variables step by step are methods with loop
invariants:
- `Extractor.Extract` appends to a list, then takes its set.
- `Counter.CountFullTime` and `Counter.CountInWindow` bump five counters.

Each method is proved equal to a function:
- `Extraction` is a recursion over the file's prefixes.
- `Tally` gives the counts as the sizes of set comprehensions.

The properties of the run are then proved about those functions.

Behaviour of the code worth noting; the model follows the code:
- A line the pattern does not match is fatal. `re.match` returns `None` and
  `.groups()` on it raises (parser.py:50). The run fails, naming the first such
  line; such lines are not skipped.
- The interval is a single `-t START END` pair (parser.py:20-24, 35-36).
- The pattern only captures `ERROR`, `WARNING` and `INFO` (parser.py:45).
  The `TRACE` and `DEBUG` branches can never fire, so those counts are always 0.
- A record exactly at START or END is not counted, and one at START plus a few
  milliseconds is. With the window (10:00:00, 10:00:01), an INFO record at
  10:00:00.123 is counted (`Samples.CleanFileInWindow`).
- In the windowed run, every captured timestamp goes through `strptime`
  (parser.py:70). A captured timestamp that is not a real date and time makes
  the run fail. Examples are month 13, 29 February outside a leap year,
  hour 24, second 60 and year 0.
- The printed text keeps the space after the Warnings count (parser.py:84).

## Model

| member | source | states |
|---|---|---|
| Text.Decimal | parser.py:83-88 | `str(n)` of a count is a non-empty digit string without a leading zero that reads back as `n` |
| Text.PadRoundTrip | parser.py:95-96 | a number below 10^w, written with `w` zero-padded digits, reads back as itself |
| Timestamps.ParseStamp | parser.py:70 | `strptime(..., '%Y-%m-%d %H:%M:%S.%f')` on text of the captured layout yields, when it succeeds, a real datetime whose microseconds are whole milliseconds |
| Timestamps.StampDigits | parser.py:70 | a captured timestamp parses exactly when its digit fields form a real date and time, and then to the datetime they spell, with the three `%f` digits as milliseconds |
| Timestamps.ParseStampSpec | parser.py:70 | every real datetime written in the captured layout with any three millisecond digits parses back to that datetime |
| Timestamps.MonthPastDecember | parser.py:70 | month 13 is refused |
| Timestamps.NoFebruary29In2023 | parser.py:70 | 29 February of a common year is refused |
| Timestamps.NoFebruary29In1900 | parser.py:70 | 29 February of a century year not divisible by 400 is refused |
| Timestamps.February29In2000 | parser.py:70 | 29 February of a year divisible by 400 is accepted |
| Timestamps.NoHour24 | parser.py:70 | hour 24 is refused |
| Timestamps.NoLeapSecond | parser.py:70 | second 60 is refused |
| Timestamps.NoYearZero | parser.py:70 | year 0 is refused |
| Timestamps.MillisecondsAsMicroseconds | parser.py:70 | `.123` is read as 123000 microseconds |
| Timestamps.MillisecondsPastTheSecond | parser.py:70 | `10:00:01.456` is read as second 1 and 456000 microseconds |
| Timestamps.FormatSeconds | parser.py:95-96 | `strftime('%Y-%m-%d %H:%M:%S')` of a real datetime has the layout `DDDD-DD-DD DD:DD:DD` |
| Timestamps.FormatSecondsRoundTrip | parser.py:95-96 | formatting a second-precision datetime and reading the fields back gives the same datetime |
| Timestamps.BeforeIsStrictTotalOrder | parser.py:71 | the order `<` and `>` use on datetimes is irreflexive, transitive and total |
| LineMatcher.DigitRunEnd | parser.py:45 | the greedy `\d*` stops at the first non-digit after a run of digits |
| LineMatcher.LevelAt | parser.py:45 | the alternation yields a level token that begins the rest of the line, or none when no level token does |
| LineMatcher.Match | parser.py:44-50 | every group triple the recogniser returns is one the pattern accepts at the start of the line |
| LineMatcher.MatchComplete | parser.py:44-50 | every triple the pattern accepts at the start of a line is what the recogniser returns |
| LineMatcher.MatchSpec | parser.py:44-50 | the recogniser returns `r` exactly when the pattern accepts `r`, and no match exactly when the pattern accepts nothing |
| LineMatcher.TrailingTextIgnored | parser.py:50 | `re.match` anchors only at the start: text after the level token does not change the groups |
| Extractor.FailureIsFinal | parser.py:49-50 | once a line has failed, the lines after it change nothing |
| Extractor.Extract | parser.py:43-51 | the reading loop returns the set of the groups of all lines, or fails at the first line without a match |
| Extractor.ExtractionFails | parser.py:49-50 | the run fails exactly when some line does not match, and then it names the first such line |
| Extractor.FailsAtFirstUnmatched | parser.py:49-50 | a failure names a line that does not match, and every line before it matches |
| Extractor.ExtractionCollects | parser.py:49-51 | on success a triple is in the set exactly when some line yields it |
| Extractor.CollectedFromSomeLine | parser.py:49-51 | every triple in the set comes from some line |
| Extractor.EveryLineCollected | parser.py:49-51 | on success every line matches and its triple is in the set |
| Extractor.OnlyCapturedLevels | parser.py:45-50 | every extracted level is `ERROR`, `WARNING` or `INFO` |
| Extractor.RepeatedLineCollapses | parser.py:51 | reading a line again that was already read leaves the result unchanged |
| TimeWindow.CheckWindow | parser.py:32-40 | no `-t` gives no window; START after END fails with `WindowReversed` and nothing else does; otherwise the window is exactly (START, END) |
| TimeWindow.BoundsExcluded | parser.py:71 | neither bound lies inside its own window |
| TimeWindow.EmptyWhenBoundsEqual | parser.py:71 | a window with START equal to END, which the script accepts, contains no datetime |
| Counter.BucketGrows | parser.py:57-66 | a record not yet visited adds one to the bucket of its own level when it passes the filter, and nothing to any other bucket |
| Counter.SizesGrow | parser.py:56-66 | visiting one more record changes the counts exactly as one pass of the `if`/`elif` chain does, and only when the record passes the window test |
| Counter.CountFullTime | parser.py:55-66 | the loop with no window leaves in each counter the number of distinct records of that level |
| Counter.CountInWindow | parser.py:68-81 | the windowed loop fails when a timestamp does not parse; otherwise it leaves in each counter the number of records of that level strictly inside the window |
| Counter.BucketsPartition | parser.py:57-66 | the TRACE and DEBUG counts are 0, and INFO, WARNING and ERROR together count every record that passes |
| Counter.TotalIsRecordsCounted | parser.py:55-81 | the five counts add up to the number of distinct records that pass the window test |
| Counter.TraceAndDebugStayZero | parser.py:57-60 | the TRACE and DEBUG counters stay 0 |
| Counter.FullTimeCountsEveryRecord | parser.py:55-66 | with no window, every distinct record is counted once |
| Counter.EqualBoundsCountNothing | parser.py:71 | with START equal to END nothing is counted |
| Report.Values | parser.py:114 | the pie values are the five counts in label order, and they sum to the total count |
| Report.ConsoleTextLines | parser.py:83-88 | the printed text is five lines joined by newlines, line k being label k, ` - ` and `str` of count k, with one extra space after the Warnings count; no line contains a newline |
| Report.PieValuesList | parser.py:114 | the `values:` array is `[`, the five counts in label order written by `str` and joined by `, `, then `]`; each part is a digit string that reads back as its count |
| Report.IntervalReadsBack | parser.py:92-96 | the interval text is `full time` exactly when there is no window; otherwise it reads back, at fixed offsets, as START and END |
| Pipeline.Run | parser.py:32-96 | the script's top level (window check, reading, the counting loop of the right kind, report values) gives what `Analyze` describes |
| Pipeline.ReversedWindowFailsFirst | parser.py:37-39 | START after END fails the run whatever the log holds |
| Pipeline.UnmatchedLineIsFatal | parser.py:48-50 | any line without a match fails the run, at that line or an earlier one, whatever the window |
| Pipeline.FullTimeRun | parser.py:55-66 | without a window, the run succeeds exactly when every line matches; then TRACE and DEBUG are 0, the counts sum to the number of distinct records, and the interval is `full time` |
| Pipeline.WindowRun | parser.py:68-81 | with a window, the counts sum to the number of distinct records strictly inside it, and TRACE and DEBUG are 0 |
| Pipeline.EqualBoundsRun | parser.py:71 | START equal to END counts nothing |
| Pipeline.WindowRunSucceeds | parser.py:37-70 | with a window, the run succeeds exactly when START is not after END, every line matches and every captured timestamp is a real date and time |
| Samples.InfoLineMatches | parser.py:44-50 | a sample INFO line yields its timestamp, its separator ` 42 ` and `INFO` |
| Samples.ErrorLineMatches | parser.py:44-50 | a sample ERROR line yields its three groups |
| Samples.ThreeLines | parser.py:49-51 | three matching lines, the first repeated last, give two records |
| Samples.StrayThirdLine | parser.py:49-50 | a third line without a match fails the run at index 2, whatever follows |
| Samples.SampleFileAborts | parser.py:49-50 | the sample log whose third line is not a log line fails at that line |
| Samples.CleanFileRecords | parser.py:49-51 | the log without that line yields two distinct records |
| Samples.CleanFileFullTime | parser.py:55-66 | that log counts one INFO and one ERROR over `full time` |
| Samples.CleanFileReport | parser.py:114 | the pie values for those counts are `[0, 0, 1, 0, 1]` |
| Samples.InfoInsideErrorOutside | parser.py:68-81 | an INFO record inside a window and an ERROR record outside it count as one INFO |
| Samples.WindowSplitsRecords | parser.py:70-71 | the INFO record at 10:00:00.123 lies inside (10:00:00, 10:00:01), and the ERROR record at 10:00:01.456 does not |
| Samples.CleanFileInWindow | parser.py:68-81 | with that window the sample log counts one INFO record only |

## Left out

- Command-line parsing (parser.py:11-30) is left out: `argparse` and `valid_datetime`. The bounds reach the model as datetimes. `strptime` also accepts fields shorter than their nominal width, which is not modelled. `Pipeline.WellFormedTime` (through `TimeWindow.ValidBounds`) states what the model relies on: both bounds are real datetimes.
- Opening and reading the log file (parser.py:48-49) is left out. The model takes the file's lines, each with its line ending, as a sequence of strings. The I/O errors Python would raise are not modelled.
- The `LineDidNotMatch` failure carries a zero-based line index. Python raises an `AttributeError` without one; the index only names which line is to blame.
- `\d` is modelled as the ASCII digits only. Python also matches other Unicode decimal digits, and `strptime` would then handle them in its own way.
- `Timestamps.ParseStamp` models `strptime` only on text of the captured layout (four-digit year, two-digit fields, three fraction digits). `strptime` also accepts one-digit fields, one to six fraction digits and runs of whitespace, but only captured groups reach this call, and they always have the captured layout.
- `Timestamps.FormatSeconds`: the year is always padded to four digits. What `strftime('%Y')` writes for years below 1000 depends on the C library.
- Python iterates a set in an unspecified order. The counting methods visit the records in an arbitrary order, and the proofs hold for every order. With a window and several unparsable timestamps, which one raises first is not modelled. Only the fact that the run fails is modelled.
- The HTML markup, the CDN script tags and the file name in the page's `<h2>` heading (parser.py:97-123) are presentation and are left out. So are writing `parse_result.html` and the newline `print` adds. The values put into the page are modelled: the counts (`Report.Values`, `Report.PieValues`) and `Report.IntervalText`. `Report.ConsoleText` is the printed text.
