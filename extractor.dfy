/** parser.py:43, 48-51: every line of the log is matched and its groups
    appended to a list, which is then turned into a set. A line that does not
    match aborts the whole run, since `.groups()` is asked of no match. */
module Extractor {
  import opened Results
  import opened LineMatcher

  /** The outcome of reading `lines` in order: the first line that does not
      match stops the run, otherwise the set of all groups read. */
  function Extraction(lines: seq<string>): Result<set<Record>>
    decreases |lines|
  {
    if lines == [] then Ok({})
    else
      var prior := Extraction(lines[..|lines| - 1]);
      if prior.Err? then prior
      else match Match(lines[|lines| - 1])
        case None => Err(LineDidNotMatch(|lines| - 1))
        case Some(r) => Ok(prior.value + {r})
  }

  /** One more matching line adds its record to what was extracted so far. */
  lemma StepOk(lines: seq<string>, l: string, r: Record)
    requires Extraction(lines).Ok? && Match(l) == Some(r)
    ensures Extraction(lines + [l]) == Ok(Extraction(lines).value + {r})
  {
    assert (lines + [l])[..|lines|] == lines;
  }

  /** A line that does not match fails the run at its own index. */
  lemma StepErr(lines: seq<string>, l: string)
    requires Extraction(lines).Ok? && Match(l) == None
    ensures Extraction(lines + [l]) == Err(LineDidNotMatch(|lines|))
  {
    var whole := lines + [l];
    assert whole[..|whole| - 1] == lines;
    assert whole[|whole| - 1] == l;
    var prior := Extraction(whole[..|whole| - 1]);
    assert prior.Ok?;
  }

  /** Once a prefix of the file has failed, the rest of the file is never read. */
  lemma {:induction false} FailureIsFinal(lines: seq<string>, k: nat)
    requires k <= |lines| && Extraction(lines[..k]).Err?
    ensures Extraction(lines) == Extraction(lines[..k])
    decreases |lines|
  {
    if k < |lines| {
      var init := lines[..|lines| - 1];
      assert init[..k] == lines[..k];
      FailureIsFinal(init, k);
    } else {
      assert lines[..k] == lines;
    }
  }

  /** The loop of parser.py:49-51: append the groups of each line to a list,
      stop at the first line without a match, and return the list's set. */
  method Extract(lines: seq<string>) returns (res: Result<set<Record>>)
    ensures res == Extraction(lines)
  {
    var data: seq<Record> := [];
    var i := 0;
    assert lines[..0] == [] && (set r | r in data) == {};
    while i < |lines|
      invariant 0 <= i <= |lines|
      invariant Extraction(lines[..i]) == Ok(set r | r in data)
    {
      var m := Match(lines[i]);
      assert lines[..i + 1][..i] == lines[..i];
      if m.None? {
        FailureIsFinal(lines, i + 1);
        return Err(LineDidNotMatch(i));
      }
      Collect(data, m.value);
      data := data + [m.value];
      i := i + 1;
    }
    assert lines[..i] == lines;
    res := Ok(set r | r in data);
  }

  /** The set of a list grows by the element appended to it. */
  lemma Collect(data: seq<Record>, x: Record)
    ensures (set r | r in data + [x]) == (set r | r in data) + {x}
  {
  }

  /** The run fails exactly when some line does not match, and then it names
      the first such line. */
  lemma ExtractionFails(lines: seq<string>)
    ensures Extraction(lines).Err? <==> exists i :: 0 <= i < |lines| && Match(lines[i]).None?
    ensures Extraction(lines).Err? ==>
      Extraction(lines).error.LineDidNotMatch? &&
      (var i := Extraction(lines).error.line;
       i < |lines| && Match(lines[i]).None? && forall j :: 0 <= j < i ==> Match(lines[j]).Some?)
  {
    FailsAtFirstUnmatched(lines);
    if Extraction(lines).Ok? {
      forall i | 0 <= i < |lines|
        ensures Match(lines[i]).Some?
      {
        EveryLineCollected(lines, i);
      }
    }
  }

  lemma {:induction false} FailsAtFirstUnmatched(lines: seq<string>)
    ensures Extraction(lines).Err? ==>
      Extraction(lines).error.LineDidNotMatch? &&
      (var i := Extraction(lines).error.line;
       i < |lines| && Match(lines[i]).None? && forall j :: 0 <= j < i ==> Match(lines[j]).Some?)
    decreases |lines|
  {
    if lines != [] {
      var last := |lines| - 1;
      var init := lines[..last];
      FailsAtFirstUnmatched(init);
      if Extraction(init).Ok? {
        forall j | 0 <= j < last
          ensures Match(lines[j]).Some?
        {
          EveryLineCollected(init, j);
          assert init[j] == lines[j];
        }
      } else {
        var i := Extraction(init).error.line;
        assert init[i] == lines[i];
        assert forall j :: 0 <= j < i ==> init[j] == lines[j];
      }
    }
  }

  /** On success the result holds exactly the groups of the lines read: a
      record is there when some line yields it, and only then. */
  lemma ExtractionCollects(lines: seq<string>)
    requires Extraction(lines).Ok?
    ensures forall r :: r in Extraction(lines).value <==>
      exists i :: 0 <= i < |lines| && Match(lines[i]) == Some(r)
  {
    forall r | r in Extraction(lines).value
      ensures exists i :: 0 <= i < |lines| && Match(lines[i]) == Some(r)
    {
      CollectedFromSomeLine(lines, r);
    }
    forall i | 0 <= i < |lines| && Match(lines[i]).Some?
      ensures Match(lines[i]).value in Extraction(lines).value
    {
      EveryLineCollected(lines, i);
    }
  }

  lemma {:induction false} CollectedFromSomeLine(lines: seq<string>, r: Record)
    requires Extraction(lines).Ok? && r in Extraction(lines).value
    ensures exists i :: 0 <= i < |lines| && Match(lines[i]) == Some(r)
    decreases |lines|
  {
    var last := |lines| - 1;
    var init := lines[..last];
    if Match(lines[last]) != Some(r) {
      CollectedFromSomeLine(init, r);
      var i :| 0 <= i < |init| && Match(init[i]) == Some(r);
      assert lines[i] == init[i];
    }
  }

  lemma {:induction false} EveryLineCollected(lines: seq<string>, i: nat)
    requires Extraction(lines).Ok? && i < |lines|
    ensures Match(lines[i]).Some? && Match(lines[i]).value in Extraction(lines).value
    decreases |lines|
  {
    var last := |lines| - 1;
    var init := lines[..last];
    if i < last {
      EveryLineCollected(init, i);
      assert init[i] == lines[i];
    }
  }

  /** Every extracted record carries one of the three levels the pattern can
      capture, so TRACE and DEBUG never occur. */
  lemma OnlyCapturedLevels(lines: seq<string>)
    requires Extraction(lines).Ok?
    ensures forall r :: r in Extraction(lines).value ==> r.level in Levels
  {
    ExtractionCollects(lines);
  }

  /** Deduplication is on whole records: reading a line again that was already
      read changes nothing. */
  lemma {:induction false} RepeatedLineCollapses(lines: seq<string>, k: nat)
    requires k < |lines|
    ensures Extraction(lines + [lines[k]]) == Extraction(lines)
  {
    var more := lines + [lines[k]];
    assert more[..|more| - 1] == lines;
    assert more[|more| - 1] == lines[k];
    if Extraction(lines).Ok? {
      EveryLineCollected(lines, k);
      var v := Match(lines[k]).value;
      assert Extraction(lines).value + {v} == Extraction(lines).value;
    }
  }
}
