/** The optional `-t START END` interval (parser.py:32-40) and the test a
    record's timestamp must pass inside it (parser.py:70-71). */
module TimeWindow {
  import opened Results
  import opened Timestamps

  /** Both bounds, at second precision as `valid_datetime` yields them. */
  datatype Window = Window(start: DateTime, end: DateTime)

  /** The bounds come from `valid_datetime`, so they are real datetimes. */
  predicate ValidBounds(w: Option<Window>) {
    w.Some? ==> IsValid(w.value.start) && IsValid(w.value.end)
  }

  /** parser.py:32-40: no interval means no window; START after END is
      refused; START equal to END is accepted. */
  function CheckWindow(time: Option<(DateTime, DateTime)>): (r: Result<Option<Window>>)
    ensures time.None? ==> r == Ok(None)
    ensures time.Some? ==> (r.Err? <==> Before(time.value.1, time.value.0))
    ensures time.Some? ==>
      (r.Ok? <==> time.value.0 == time.value.1 || Before(time.value.0, time.value.1))
    ensures r.Err? ==> r.error == WindowReversed
    ensures r.Ok? && time.Some? ==> r.value == Some(Window(time.value.0, time.value.1))
  {
    match time
    case None => Ok(None)
    case Some((start, end)) =>
      BeforeIsStrictTotalOrder(start, end, start);
      if Before(end, start) then Err(WindowReversed) else Ok(Some(Window(start, end)))
  }

  /** `tmp_date > start_time and tmp_date < end_time`: strictly inside. */
  predicate InWindow(d: DateTime, w: Window) {
    Before(w.start, d) && Before(d, w.end)
  }

  /** Neither bound itself is inside the window: a record stamped exactly at
      START (with `.000` milliseconds) or exactly at END is not counted. */
  lemma BoundsExcluded(w: Window)
    ensures !InWindow(w.start, w) && !InWindow(w.end, w)
  {
    BeforeIsStrictTotalOrder(w.start, w.end, w.start);
    BeforeIsStrictTotalOrder(w.end, w.start, w.end);
  }

  /** A window whose bounds coincide holds nothing. */
  lemma EmptyWhenBoundsEqual(w: Window, d: DateTime)
    requires w.start == w.end
    ensures !InWindow(d, w)
  {
    BeforeIsStrictTotalOrder(w.start, d, w.end);
  }
}
