/** The failure-compatible wrappers shared by the whole model, and the three
    ways a run of the log parser can end without a report. */
module Results {

  datatype Option<+T> = None | Some(value: T)

  /** Why a run stops before printing counts.
      - WindowReversed: the `-t START END` pair has START after END.
      - LineDidNotMatch(line): the line at that index (0-based) does not begin with
        the log pattern, so the pattern match yields nothing and asking it for its
        groups aborts the run.
      - TimestampOutOfRange: with a window, a captured timestamp is not a real
        calendar date and time, so parsing it as a datetime aborts the run. */
  datatype Failure = WindowReversed | LineDidNotMatch(line: nat) | TimestampOutOfRange

  datatype Result<+T> = Ok(value: T) | Err(error: Failure)
}
