/** The values the parser prints and writes into its HTML page
    (parser.py:83-88, 92-96, 114-115): the five counts in a fixed order and
    the description of the time interval. The page's markup and script tags
    are presentation only. */
module Report {
  import opened Results
  import opened Text
  import opened Timestamps
  import opened TimeWindow
  import opened Counter

  /** The labels of the console lines, the HTML list and the pie chart. */
  const Labels: seq<string> := ["Traces", "Debugs", "Infos", "Warnings", "Errors"]

  function Sum(v: seq<nat>): nat {
    if v == [] then 0 else v[0] + Sum(v[1..])
  }

  /** The counts in the order of `Labels`. */
  function Values(c: Counts): (v: seq<nat>)
    ensures |v| == |Labels|
    ensures v[0] == c.traces && v[1] == c.debugs && v[2] == c.infos
    ensures v[3] == c.warnings && v[4] == c.errors
    ensures Sum(v) == Total(c)
  {
    var v := [c.traces, c.debugs, c.infos, c.warnings, c.errors];
    assert Sum([c.errors]) == c.errors by {
      assert [c.errors][1..] == [];
    }
    assert Sum([c.warnings, c.errors]) == c.warnings + c.errors by {
      assert [c.warnings, c.errors][1..] == [c.errors];
    }
    assert Sum([c.infos, c.warnings, c.errors]) == c.infos + c.warnings + c.errors by {
      assert [c.infos, c.warnings, c.errors][1..] == [c.warnings, c.errors];
    }
    assert v[1..][1..] == [c.infos, c.warnings, c.errors];
    v
  }

  /** The text handed to `print` (parser.py:83-88), with the space the
      format string leaves after the Warnings count. */
  function ConsoleText(c: Counts): string {
    "Traces - " + Decimal(c.traces) + "\nDebugs - " + Decimal(c.debugs) +
    "\nInfos - " + Decimal(c.infos) + "\nWarnings - " + Decimal(c.warnings) +
    " \nErrors - " + Decimal(c.errors)
  }

  /** The pie chart's `values:` array (parser.py:114). */
  function PieValues(c: Counts): string {
    "[" + Decimal(c.traces) + ", " + Decimal(c.debugs) + ", " + Decimal(c.infos) + ", " +
    Decimal(c.warnings) + ", " + Decimal(c.errors) + "]"
  }

  /** Line `k` of the printed text: the label, ` - ` and the count, with the
      extra space the format string leaves after the Warnings count. */
  function ConsoleLine(c: Counts, k: nat): string
    requires k < |Labels|
  {
    Labels[k] + " - " + Decimal(Values(c)[k]) + if Labels[k] == "Warnings" then " " else ""
  }

  /** The printed text is the five lines, one per label in order, each holding
      its count, separated by newlines that no line contains. */
  lemma ConsoleTextLines(c: Counts)
    ensures ConsoleText(c) ==
      Join([ConsoleLine(c, 0), ConsoleLine(c, 1), ConsoleLine(c, 2), ConsoleLine(c, 3), ConsoleLine(c, 4)], "\n")
    ensures forall k :: 0 <= k < |Labels| ==> '\n' !in ConsoleLine(c, k)
  {
    ConsoleLineText(c);
    JoinFive(ConsoleLine(c, 0), ConsoleLine(c, 1), ConsoleLine(c, 2), ConsoleLine(c, 3), ConsoleLine(c, 4), "\n");
    ConsoleTextRegrouped(Decimal(c.traces), Decimal(c.debugs), Decimal(c.infos), Decimal(c.warnings), Decimal(c.errors));
    forall k | 0 <= k < |Labels| ensures '\n' !in ConsoleLine(c, k) {
      NoNewline(c, k);
    }
  }

  lemma NoNewline(c: Counts, k: nat)
    requires k < |Labels|
    ensures '\n' !in ConsoleLine(c, k)
  {
    var d := Decimal(Values(c)[k]);
    assert forall i :: 0 <= i < |d| ==> d[i] != '\n';
  }

  lemma JoinFive(l0: string, l1: string, l2: string, l3: string, l4: string, sep: string)
    ensures Join([l0, l1, l2, l3, l4], sep) == l0 + sep + l1 + sep + l2 + sep + l3 + sep + l4
  {
    var lines := [l0, l1, l2, l3, l4];
    assert Join(lines[..1], sep) == l0 by { assert lines[..1] == [l0]; }
    assert Join(lines[..2], sep) == l0 + sep + l1 by { assert lines[..2][..1] == lines[..1]; }
    assert Join(lines[..3], sep) == l0 + sep + l1 + sep + l2 by { assert lines[..3][..2] == lines[..2]; }
    assert Join(lines[..4], sep) == l0 + sep + l1 + sep + l2 + sep + l3 by { assert lines[..4][..3] == lines[..3]; }
    assert lines[..5][..4] == lines[..4] && lines[..5] == lines;
  }

  /** A format-string literal that starts a new line splits at the newline. */
  lemma SplitAtNewline(x: string, lit: string, head: string, d: string)
    requires lit == "\n" + head
    ensures x + lit + d == x + "\n" + (head + d)
  {
  }

  lemma ConsoleLineText(c: Counts)
    ensures ConsoleLine(c, 0) == "Traces - " + Decimal(c.traces)
    ensures ConsoleLine(c, 1) == "Debugs - " + Decimal(c.debugs)
    ensures ConsoleLine(c, 2) == "Infos - " + Decimal(c.infos)
    ensures ConsoleLine(c, 3) == "Warnings - " + Decimal(c.warnings) + " "
    ensures ConsoleLine(c, 4) == "Errors - " + Decimal(c.errors)
  {
    assert "Traces" + " - " == "Traces - " && "Debugs" + " - " == "Debugs - ";
    assert "Infos" + " - " == "Infos - " && "Warnings" + " - " == "Warnings - ";
    assert "Errors" + " - " == "Errors - " && "Traces" != "Warnings";
    assert "Debugs" != "Warnings" && "Infos" != "Warnings" && "Errors" != "Warnings";
  }

  lemma ConsoleTextRegrouped(d0: string, d1: string, d2: string, d3: string, d4: string)
    ensures "Traces - " + d0 + "\nDebugs - " + d1 + "\nInfos - " + d2 + "\nWarnings - " + d3 + " \nErrors - " + d4 ==
      ("Traces - " + d0) + "\n" + ("Debugs - " + d1) + "\n" + ("Infos - " + d2) + "\n" +
      ("Warnings - " + d3 + " ") + "\n" + ("Errors - " + d4)
  {
    var l0, l1, l2, l3, l4 := "Traces - " + d0, "Debugs - " + d1, "Infos - " + d2, "Warnings - " + d3, "Errors - " + d4;
    SplitAtNewline(l0, "\nDebugs - ", "Debugs - ", d1);
    var e1 := l0 + "\n" + l1;
    SplitAtNewline(e1, "\nInfos - ", "Infos - ", d2);
    var e2 := e1 + "\n" + l2;
    SplitAtNewline(e2, "\nWarnings - ", "Warnings - ", d3);
    var e3 := e2 + "\n" + l3;
    assert e3 + " \nErrors - " + d4 == e2 + "\n" + (l3 + " ") + "\n" + l4 by {
      assert " \nErrors - " == " " + ("\n" + "Errors - ");
    }
  }

  /** The pie values are the five counts in label order, each written by
      `str`, separated by `, ` and enclosed in brackets; a digit string holds
      no separator, so each count reads back from its place. */
  lemma PieValuesList(c: Counts)
    ensures var v := Values(c);
      PieValues(c) ==
        "[" + Join([Decimal(v[0]), Decimal(v[1]), Decimal(v[2]), Decimal(v[3]), Decimal(v[4])], ", ") + "]"
    ensures forall k :: 0 <= k < |Labels| ==>
      AllDigits(Decimal(Values(c)[k])) && Number(Decimal(Values(c)[k])) == Values(c)[k]
  {
    var d0, d1, d2, d3, d4 := Decimal(c.traces), Decimal(c.debugs), Decimal(c.infos), Decimal(c.warnings), Decimal(c.errors);
    JoinFive(d0, d1, d2, d3, d4, ", ");
    PieValuesRegrouped(d0, d1, d2, d3, d4);
  }

  lemma PieValuesRegrouped(d0: string, d1: string, d2: string, d3: string, d4: string)
    ensures "[" + d0 + ", " + d1 + ", " + d2 + ", " + d3 + ", " + d4 + "]" ==
      "[" + (d0 + ", " + d1 + ", " + d2 + ", " + d3 + ", " + d4) + "]"
  {
    var sep := ", ";
    assert "[" + d0 + sep + d1 == "[" + (d0 + sep + d1);
    assert "[" + d0 + sep + d1 + sep + d2 == "[" + (d0 + sep + d1 + sep + d2);
    assert "[" + d0 + sep + d1 + sep + d2 + sep + d3 == "[" + (d0 + sep + d1 + sep + d2 + sep + d3);
    assert "[" + d0 + sep + d1 + sep + d2 + sep + d3 + sep + d4 == "[" + (d0 + sep + d1 + sep + d2 + sep + d3 + sep + d4);
  }

  /** parser.py:92-96: `full time` without a window, otherwise both bounds at
      second precision. */
  function IntervalText(w: Option<Window>): string
    requires ValidBounds(w)
  {
    match w
    case None => "full time"
    case Some(win) => "From " + FormatSeconds(win.start) + " to " + FormatSeconds(win.end)
  }

  /** The interval text names the window: `full time` exactly when there is
      none, and otherwise it reads back, at fixed offsets, as START and END. */
  lemma IntervalReadsBack(w: Option<Window>)
    requires ValidBounds(w)
    requires w.Some? ==> w.value.start.microsecond == 0 && w.value.end.microsecond == 0
    ensures w.None? <==> IntervalText(w) == "full time"
    ensures w.Some? ==>
      var t := IntervalText(w);
      |t| == 47 && t[..5] == "From " && t[24..28] == " to " &&
      FitsShape(t[5..24], SecondsShape) && SecondsFields(t[5..24]) == w.value.start &&
      FitsShape(t[28..], SecondsShape) && SecondsFields(t[28..]) == w.value.end
  {
    if w.Some? {
      var a, b := FormatSeconds(w.value.start), FormatSeconds(w.value.end);
      FromTo(a, b);
      FormatSecondsRoundTrip(w.value.start);
      FormatSecondsRoundTrip(w.value.end);
    }
  }

  lemma FromTo(a: string, b: string)
    requires |a| == 19 && |b| == 19
    ensures var t := "From " + a + " to " + b;
      |t| == 47 && t[..5] == "From " && t[5..24] == a && t[24..28] == " to " && t[28..] == b &&
      t != "full time"
  {
    var t := "From " + a + " to " + b;
    assert t[..5] == "From ";
    assert t[5..24] == a;
    assert t[24..28] == " to ";
    assert t[28..] == b;
  }
}
