/** The log-line pattern of parser.py:44-45, applied with `re.match`
    (anchored at the start of the line, free about what follows):

      (DDDD-DD-DD DD:DD:DD.DDD)(\s\d*\s)(ERROR|WARNING|INFO)

    `Match` is a hand-written prefix recogniser for it; `Accepts` is the
    declarative reading of the same pattern, and `MatchSpec` proves the two agree. */
module LineMatcher {
  import opened Results
  import opened Text
  import Timestamps

  /** The three groups one matching line yields: the timestamp text, the
      whitespace-digits-whitespace separator and the level token. Records are
      compared as whole tuples. */
  datatype Record = Record(timestamp: string, separator: string, level: string)

  /** The only level tokens the alternation can capture. */
  const Levels: set<string> := {"ERROR", "WARNING", "INFO"}

  /** The timestamp group: date, one literal space, time with milliseconds. */
  predicate IsStamp(s: string) {
    FitsShape(s, Timestamps.StampShape)
  }

  /** `\s\d*\s`: a whitespace character, any number of digits, a whitespace character. */
  predicate IsSeparator(s: string) {
    |s| >= 2 && IsSpace(s[0]) && IsSpace(s[|s| - 1]) &&
    forall i :: 0 < i < |s| - 1 ==> IsDigit(s[i])
  }

  /** `line` begins with the groups of `r`, one after the other, each of the
      right form; anything may follow them. */
  predicate Accepts(line: string, r: Record) {
    IsStamp(r.timestamp) && IsSeparator(r.separator) && r.level in Levels &&
    r.timestamp + r.separator + r.level <= line
  }

  /** Where the run of digits that starts at `i` ends. */
  function DigitRunEnd(s: string, i: nat): (j: nat)
    requires i <= |s|
    ensures i <= j <= |s|
    ensures forall k :: i <= k < j ==> IsDigit(s[k])
    ensures j < |s| ==> !IsDigit(s[j])
    decreases |s| - i
  {
    if i < |s| && IsDigit(s[i]) then DigitRunEnd(s, i + 1) else i
  }

  /** The alternation `ERROR|WARNING|INFO` tried at position `p`. */
  function LevelAt(line: string, p: nat): (r: Option<string>)
    requires p <= |line|
    ensures r.Some? ==> r.value in Levels && r.value <= line[p..]
    ensures r.None? ==> forall level :: level in Levels ==> !(level <= line[p..])
  {
    var rest := line[p..];
    if "ERROR" <= rest then Some("ERROR")
    else if "WARNING" <= rest then Some("WARNING")
    else if "INFO" <= rest then Some("INFO")
    else None
  }

  /** `re.match(regexpr, line)` followed by `.groups()`: the three groups, or
      None where the pattern does not match at the start of the line. The
      digits are taken greedily; giving any back cannot help, since the
      character after them would then be a digit where `\s` is needed. */
  function Match(line: string): (r: Option<Record>)
    ensures r.Some? ==> Accepts(line, r.value)
  {
    if |line| < 24 || !IsStamp(line[..23]) || !IsSpace(line[23]) then None
    else
      var j := DigitRunEnd(line, 24);
      if j == |line| || !IsSpace(line[j]) then None
      else match LevelAt(line, j + 1)
        case None => None
        case Some(level) =>
          var r := Record(line[..23], line[23..j + 1], level);
          assert line[..23] + line[23..j + 1] == line[..j + 1];
          assert line[..j + 1] + level == line[..j + 1 + |level|];
          Some(r)
  }

  /** Every line the pattern accepts is recognised, with the same groups. */
  lemma MatchComplete(line: string, r: Record)
    requires Accepts(line, r)
    ensures Match(line) == Some(r)
  {
    var n := |r.separator|;
    var m := |r.level|;
    var whole := r.timestamp + r.separator + r.level;
    assert |r.timestamp| == 23;
    assert whole == line[..23 + n + m];
    assert line[..23] == r.timestamp by {
      assert line[..23] == whole[..23];
    }
    assert line[23..23 + n] == r.separator by {
      assert line[23..23 + n] == whole[23..23 + n];
    }
    assert IsSpace(line[23]);
    forall k | 24 <= k < 22 + n
      ensures IsDigit(line[k])
    {
      assert line[k] == r.separator[k - 23];
    }
    assert line[22 + n] == r.separator[n - 1];
    var j := DigitRunEnd(line, 24);
    assert j == 22 + n;
    assert r.level <= line[j + 1..] by {
      assert line[j + 1..][..m] == whole[23 + n..];
    }
    assert line[j + 1] == r.level[0];
  }

  /** The recogniser and the pattern agree on every line: a line yields `r`
      exactly when it begins with the groups of `r`, and yields nothing
      exactly when no record fits its start. */
  lemma MatchSpec(line: string, r: Record)
    ensures Match(line) == Some(r) <==> Accepts(line, r)
    ensures Match(line).None? <==> forall q :: !Accepts(line, q)
  {
    if Accepts(line, r) {
      MatchComplete(line, r);
    }
    if Match(line).None? {
      forall q ensures !Accepts(line, q) {
        if Accepts(line, q) {
          MatchComplete(line, q);
        }
      }
    }
  }

  /** Whatever follows the level token is ignored. */
  lemma TrailingTextIgnored(line: string, tail: string)
    requires Match(line).Some?
    ensures Match(line + tail) == Match(line)
  {
    var r := Match(line).value;
    var whole := r.timestamp + r.separator + r.level;
    assert whole <= line + tail by {
      assert forall k :: 0 <= k < |whole| ==> (line + tail)[k] == line[k];
    }
    MatchComplete(line + tail, r);
  }
}
