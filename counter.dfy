/** The tally of parser.py:5-9, 55-81: five counters start at zero, and one
    pass over the record set adds one to the counter whose level token equals
    the record's level. With a window the pass first parses each record's
    timestamp and skips records outside the window. */
module Counter {
  import opened Results
  import opened Timestamps
  import opened TimeWindow
  import opened LineMatcher

  /** TRACE_COUNT, DEBUG_COUNT, INFO_COUNT, WARNING_COUNT, ERR_COUNT. */
  datatype Counts = Counts(traces: nat, debugs: nat, infos: nat, warnings: nat, errors: nat)

  function Total(c: Counts): nat {
    c.traces + c.debugs + c.infos + c.warnings + c.errors
  }

  /** Whether the record passes the window test; with no window every record does. */
  predicate Counted(r: Record, w: Option<Window>) {
    match w
    case None => true
    case Some(win) => ParseStamp(r.timestamp).Some? && InWindow(ParseStamp(r.timestamp).value, win)
  }

  /** The window test as a filter on records. */
  function Passes(w: Option<Window>): Record -> bool {
    r => Counted(r, w)
  }

  /** The records of `recs` that pass the filter `keep` and count towards the
      counter of level token `token`. */
  function Bucket(recs: set<Record>, keep: Record -> bool, token: string): set<Record> {
    set r | r in recs && r.level == token && keep(r)
  }

  predicate StampsParse(recs: set<Record>) {
    forall r :: r in recs ==> ParseStamp(r.timestamp).Some?
  }

  /** What the counting pass leaves in the five counters: each counter holds
      the number of distinct records of its level that pass the window test.
      With a window, a timestamp that is not a real date and time aborts the
      pass. */
  function Tally(recs: set<Record>, w: Option<Window>): Result<Counts> {
    if w.Some? && !StampsParse(recs) then Err(TimestampOutOfRange)
    else Ok(Sizes(recs, Passes(w)))
  }

  /** The five level tokens the counting chain compares with are distinct,
      and TRACE and DEBUG are not among the captured levels. */
  lemma TokensDistinct()
    ensures "TRACE" != "DEBUG" && "TRACE" != "ERROR" && "DEBUG" != "ERROR"
    ensures "TRACE" != "INFO" && "TRACE" != "WARNING" && "DEBUG" != "INFO" && "DEBUG" != "WARNING"
    ensures "INFO" != "WARNING" && "INFO" != "ERROR" && "WARNING" != "ERROR"
    ensures "TRACE" !in Levels && "DEBUG" !in Levels
  {
    assert "TRACE"[0] != "DEBUG"[0] && "TRACE"[0] != "ERROR"[0] && "DEBUG"[0] != "ERROR"[0];
    assert "TRACE"[0] != "INFO"[0] && "DEBUG"[0] != "INFO"[0];
    assert "TRACE"[0] != "WARNING"[0] && "DEBUG"[0] != "WARNING"[0];
  }

  /** Taking one more record into account adds it to its own bucket, when it
      passes the filter, and to no other. */
  lemma BucketGrows(done: set<Record>, r: Record, keep: Record -> bool, token: string)
    requires r !in done
    ensures |Bucket(done + {r}, keep, token)| ==
      |Bucket(done, keep, token)| + if r.level == token && keep(r) then 1 else 0
  {
    if r.level == token && keep(r) {
      assert Bucket(done + {r}, keep, token) == Bucket(done, keep, token) + {r};
    } else {
      assert Bucket(done + {r}, keep, token) == Bucket(done, keep, token);
    }
  }

  /** The sizes of the five buckets of `recs`, in the counters' order. */
  function Sizes(recs: set<Record>, keep: Record -> bool): Counts {
    Counts(|Bucket(recs, keep, "TRACE")|, |Bucket(recs, keep, "DEBUG")|, |Bucket(recs, keep, "INFO")|,
           |Bucket(recs, keep, "WARNING")|, |Bucket(recs, keep, "ERROR")|)
  }

  /** What one pass of the `if`/`elif` chain (parser.py:57-66) does to the
      counters for a record of the given level. */
  function Bump(c: Counts, level: string): Counts {
    if level == "TRACE" then c.(traces := c.traces + 1)
    else if level == "DEBUG" then c.(debugs := c.debugs + 1)
    else if level == "INFO" then c.(infos := c.infos + 1)
    else if level == "WARNING" then c.(warnings := c.warnings + 1)
    else if level == "ERROR" then c.(errors := c.errors + 1)
    else c
  }

  /** One step of the counting pass: a record that passes the filter is
      counted by the chain, one that does not changes nothing. */
  lemma SizesGrow(done: set<Record>, r: Record, keep: Record -> bool)
    requires r !in done
    ensures Sizes(done + {r}, keep) == if keep(r) then Bump(Sizes(done, keep), r.level) else Sizes(done, keep)
  {
    BucketGrows(done, r, keep, "TRACE");
    BucketGrows(done, r, keep, "DEBUG");
    BucketGrows(done, r, keep, "INFO");
    BucketGrows(done, r, keep, "WARNING");
    BucketGrows(done, r, keep, "ERROR");
    TokensDistinct();
  }

  /** Moving one record from the records still to visit to those visited keeps
      the two apart and together equal to all records. */
  lemma Visit(recs: set<Record>, todo: set<Record>, r: Record)
    requires todo <= recs && r in todo
    ensures todo - {r} <= recs && (recs - todo) + {r} == recs - (todo - {r})
    ensures r !in recs - todo && |todo - {r}| < |todo|
  {
  }

  /** parser.py:55-66: the pass over the records with no window. */
  method CountFullTime(recs: set<Record>) returns (c: Counts)
    ensures Tally(recs, None) == Ok(c)
  {
    var traces, debugs, infos, warnings, errors := 0, 0, 0, 0, 0;
    var todo := recs;
    ghost var done: set<Record> := {};
    while todo != {}
      invariant todo <= recs && done == recs - todo
      invariant Counts(traces, debugs, infos, warnings, errors) == Sizes(done, Passes(None))
      decreases |todo|
    {
      var r :| r in todo;
      Visit(recs, todo, r);
      SizesGrow(done, r, Passes(None));
      if r.level == "TRACE" {
        traces := traces + 1;
      } else if r.level == "DEBUG" {
        debugs := debugs + 1;
      } else if r.level == "INFO" {
        infos := infos + 1;
      } else if r.level == "WARNING" {
        warnings := warnings + 1;
      } else if r.level == "ERROR" {
        errors := errors + 1;
      }
      todo := todo - {r};
      done := done + {r};
    }
    assert done == recs;
    c := Counts(traces, debugs, infos, warnings, errors);
  }

  /** parser.py:68-81: the pass over the records with a window. */
  method CountInWindow(recs: set<Record>, w: Window) returns (res: Result<Counts>)
    ensures res == Tally(recs, Some(w))
  {
    var traces, debugs, infos, warnings, errors := 0, 0, 0, 0, 0;
    var todo := recs;
    ghost var done: set<Record> := {};
    while todo != {}
      invariant todo <= recs && done == recs - todo
      invariant StampsParse(done)
      invariant Counts(traces, debugs, infos, warnings, errors) == Sizes(done, Passes(Some(w)))
      decreases |todo|
    {
      var r :| r in todo;
      var stamp := ParseStamp(r.timestamp);
      if stamp.None? {
        return Err(TimestampOutOfRange);
      }
      Visit(recs, todo, r);
      SizesGrow(done, r, Passes(Some(w)));
      if InWindow(stamp.value, w) {
        if r.level == "TRACE" {
          traces := traces + 1;
        } else if r.level == "DEBUG" {
          debugs := debugs + 1;
        } else if r.level == "INFO" {
          infos := infos + 1;
        } else if r.level == "WARNING" {
          warnings := warnings + 1;
        } else if r.level == "ERROR" {
          errors := errors + 1;
        }
      }
      todo := todo - {r};
      done := done + {r};
    }
    assert done == recs;
    res := Ok(Counts(traces, debugs, infos, warnings, errors));
  }

  lemma DisjointUnion(x: set<Record>, y: set<Record>)
    requires x !! y
    ensures |x + y| == |x| + |y|
  {
    assert x * y == {};
  }

  /** When every record carries one of the captured levels, the five buckets
      split the records that pass the filter: each is in exactly one. */
  lemma BucketsPartition(recs: set<Record>, keep: Record -> bool)
    requires forall r :: r in recs ==> r.level in Levels
    ensures |Bucket(recs, keep, "TRACE")| == 0 && |Bucket(recs, keep, "DEBUG")| == 0
    ensures |Bucket(recs, keep, "INFO")| + |Bucket(recs, keep, "WARNING")| + |Bucket(recs, keep, "ERROR")|
         == |set r | r in recs && keep(r)|
  {
    var infos, warnings, errors := Bucket(recs, keep, "INFO"), Bucket(recs, keep, "WARNING"), Bucket(recs, keep, "ERROR");
    TokensDistinct();
    assert Bucket(recs, keep, "TRACE") == {};
    assert Bucket(recs, keep, "DEBUG") == {};
    DisjointUnion(infos, warnings);
    DisjointUnion(infos + warnings, errors);
    assert (set r | r in recs && keep(r)) == infos + warnings + errors;
  }

  /** When every record carries one of the captured levels, the five counters
      add up to the number of distinct records that pass the window test: each
      such record is counted once, in one counter. */
  lemma TotalIsRecordsCounted(recs: set<Record>, w: Option<Window>)
    requires forall r :: r in recs ==> r.level in Levels
    requires Tally(recs, w).Ok?
    ensures Total(Tally(recs, w).value) == |set r | r in recs && Counted(r, w)|
  {
    BucketsPartition(recs, Passes(w));
    assert (set r | r in recs && Passes(w)(r)) == (set r | r in recs && Counted(r, w));
  }

  /** The TRACE and DEBUG branches never fire on records the pattern can
      capture, so those two counters stay at zero. */
  lemma TraceAndDebugStayZero(recs: set<Record>, w: Option<Window>)
    requires forall r :: r in recs ==> r.level in Levels
    requires Tally(recs, w).Ok?
    ensures Tally(recs, w).value.traces == 0 && Tally(recs, w).value.debugs == 0
  {
    BucketsPartition(recs, Passes(w));
  }

  /** Without a window every record is counted once. */
  lemma FullTimeCountsEveryRecord(recs: set<Record>)
    requires forall r :: r in recs ==> r.level in Levels
    ensures Tally(recs, None).Ok? && Total(Tally(recs, None).value) == |recs|
  {
    var keep := Passes(None);
    assert forall r :: keep(r);
    BucketsPartition(recs, keep);
    assert (set r | r in recs && keep(r)) == recs;
  }

  /** A window whose START equals its END counts nothing. */
  lemma EqualBoundsCountNothing(recs: set<Record>, w: Window)
    requires w.start == w.end
    requires Tally(recs, Some(w)).Ok?
    ensures Tally(recs, Some(w)).value == Counts(0, 0, 0, 0, 0)
  {
    forall token ensures Bucket(recs, Passes(Some(w)), token) == {} {
      forall r | r in recs && Counted(r, Some(w)) ensures false {
        EmptyWhenBoundsEqual(w, ParseStamp(r.timestamp).value);
      }
    }
  }
}
