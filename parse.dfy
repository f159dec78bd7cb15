/**
 * `parse_date_interval` of `src/utils/parse.py`: "dd.mm.yy - dd.mm.yy" to an inclusive
 * interval from the first day's 00:00:00 to the second day's 23:59:59. The date format
 * itself (`strptime(part, "%d.%m.%y")`) is a parameter that gives a day ordinal, or
 * `None` where Python raises `ValueError`.
 */
module Parse {
  import opened Wrappers
  import opened Models

  datatype DateInterval = DateInterval(start: Instant, end: Instant)

  /** How often `c` occurs in `s`. */
  function Count(s: string, c: char): nat {
    if s == [] then 0 else Count(s[..|s| - 1], c) + (if s[|s| - 1] == c then 1 else 0)
  }

  /** `s.replace(" ", "")`. */
  function StripSpaces(s: string): (r: string)
    ensures ' ' !in r
    ensures |r| == |s| - Count(s, ' ')
    ensures ' ' !in s ==> r == s
  {
    if s == [] then []
    else
      var init := s[..|s| - 1];
      assert s == init + [s[|s| - 1]];
      var r := StripSpaces(init);
      if s[|s| - 1] == ' ' then r else r + [s[|s| - 1]]
  }

  /** Removing spaces keeps every other character and invents none. */
  lemma {:induction false} StripSpacesKeepsOthers(s: string, c: char)
    ensures c in StripSpaces(s) <==> c in s && c != ' '
  {
    if s != [] {
      var init := s[..|s| - 1];
      assert s == init + [s[|s| - 1]];
      StripSpacesKeepsOthers(init, c);
    }
  }

  /** `sep.join(parts)`. */
  function Join(parts: seq<string>, sep: char): string {
    if parts == [] then []
    else if |parts| == 1 then parts[0]
    else Join(parts[..|parts| - 1], sep) + [sep] + parts[|parts| - 1]
  }

  /** `s.split(sep)`: one more part than separators, none containing one. */
  function Split(s: string, sep: char): (parts: seq<string>)
    ensures |parts| == Count(s, sep) + 1
    ensures forall i | 0 <= i < |parts| :: sep !in parts[i]
  {
    if s == [] then [[]]
    else
      var init := s[..|s| - 1];
      var c := s[|s| - 1];
      var parts := Split(init, sep);
      if c == sep then parts + [[]]
      else parts[..|parts| - 1] + [parts[|parts| - 1] + [c]]
  }

  /** Joining the parts of a split gives the text back. */
  lemma {:induction false} JoinSplitRoundTrip(s: string, sep: char)
    ensures Join(Split(s, sep), sep) == s
  {
    if s != [] {
      var init := s[..|s| - 1];
      var c := s[|s| - 1];
      assert s == init + [c];
      var parts := Split(init, sep);
      JoinSplitRoundTrip(init, sep);
      if c == sep {
        assert (parts + [[]])[..|parts|] == parts;
      } else {
        var front := parts[..|parts| - 1];
        var last := parts[|parts| - 1] + [c];
        assert (front + [last])[..|front|] == front;
        if |front| >= 1 {
          assert parts == front + [parts[|parts| - 1]];
        }
      }
    }
  }

  /** Splitting a text with no separator gives the text itself. */
  lemma {:induction false} SplitWithoutSeparator(s: string, sep: char)
    requires sep !in s
    ensures Split(s, sep) == [s]
  {
    if s != [] {
      assert s == s[..|s| - 1] + [s[|s| - 1]];
      SplitWithoutSeparator(s[..|s| - 1], sep);
    }
  }

  /** Adding a separator and a separator-free tail adds one part. */
  lemma {:induction false} SplitAfterSeparator(s: string, sep: char, tail: string)
    requires sep !in tail
    ensures Split(s + [sep] + tail, sep) == Split(s, sep) + [tail]
  {
    if tail == [] {
      assert s + [sep] + tail == s + [sep];
      assert (s + [sep])[..|s|] == s;
    } else {
      var init := tail[..|tail| - 1];
      var c := tail[|tail| - 1];
      assert tail == init + [c];
      SplitAfterSeparator(s, sep, init);
      assert (s + [sep] + tail)[..|s + [sep] + tail| - 1] == s + [sep] + init;
    }
  }

  /** `split` undoes `join` when no part contains the separator. */
  lemma {:induction false} SplitJoinRoundTrip(parts: seq<string>, sep: char)
    requires |parts| >= 1
    requires forall i | 0 <= i < |parts| :: sep !in parts[i]
    ensures Split(Join(parts, sep), sep) == parts
  {
    if |parts| == 1 {
      SplitWithoutSeparator(parts[0], sep);
    } else {
      var front := parts[..|parts| - 1];
      assert parts == front + [parts[|parts| - 1]];
      SplitJoinRoundTrip(front, sep);
      SplitAfterSeparator(Join(front, sep), sep, parts[|parts| - 1]);
    }
  }

  /** Two parts joined by a separator. */
  lemma JoinTwo(a: string, b: string, sep: char)
    ensures Join([a, b], sep) == a + [sep] + b
  {
    assert [a, b][..1] == [a];
  }

  /** The interval named by the parts of a split text: exactly two parts, both dates. */
  function DatesOf(parts: seq<string>, strptime: string -> Option<int>): (r: Option<DateInterval>)
    ensures r.Some? <==> |parts| == 2 && strptime(parts[0]).Some? && strptime(parts[1]).Some?
  {
    if |parts| != 2 then None
    else
      var d1 := strptime(parts[0]);
      var d2 := strptime(parts[1]);
      if d1.None? || d2.None? then None
      // from 00:00:00 of the first day to 23:59:59 of the second
      else Some(DateInterval(Instant(d1.value, 0), Instant(d2.value, 86399)))
  }

  /**
   * `parse_date_interval`. `None` unless the text, spaces removed, has exactly one `-`
   * and both sides parse as dates. There is no check that the start comes first.
   */
  function ParseDateInterval(s: string, strptime: string -> Option<int>): (r: Option<DateInterval>)
    ensures Count(StripSpaces(s), '-') != 1 ==> r.None?
  {
    DatesOf(Split(StripSpaces(s), '-'), strptime)
  }

  /** An accepted text splits in two parts, and the interval is built from their dates. */
  lemma AcceptedSplitsInTwo(s: string, strptime: string -> Option<int>)
    requires ParseDateInterval(s, strptime).Some?
    ensures |Split(StripSpaces(s), '-')| == 2
    ensures var parts := Split(StripSpaces(s), '-');
      strptime(parts[0]).Some? && strptime(parts[1]).Some? &&
      ParseDateInterval(s, strptime).value
        == DateInterval(Instant(strptime(parts[0]).value, 0), Instant(strptime(parts[1]).value, 86399))
  {
    var parts := Split(StripSpaces(s), '-');
    assert ParseDateInterval(s, strptime) == DatesOf(parts, strptime);
  }

  /**
   * Every accepted text is two space-free dates around one `-`, and the interval runs
   * from the first one's start of day to the second one's end of day.
   */
  lemma ParsedTextShape(s: string, strptime: string -> Option<int>) returns (first: string, second: string)
    requires ParseDateInterval(s, strptime).Some?
    ensures StripSpaces(s) == first + "-" + second
    ensures '-' !in first && '-' !in second && ' ' !in first && ' ' !in second
    ensures strptime(first) == Some(ParseDateInterval(s, strptime).value.start.day)
    ensures strptime(second) == Some(ParseDateInterval(s, strptime).value.end.day)
    ensures ParseDateInterval(s, strptime).value.start.second == 0
    ensures ParseDateInterval(s, strptime).value.end.second == SecondsPerDay - 1
  {
    var text := StripSpaces(s);
    var parts := Split(text, '-');
    AcceptedSplitsInTwo(s, strptime);
    first, second := parts[0], parts[1];
    JoinSplitRoundTrip(text, '-');
    JoinTwo(first, second, '-');
    assert parts == [first, second];
  }

  /** Two dash-free parts around one dash split back into those parts. */
  lemma SplitAroundDash(first: string, second: string)
    requires '-' !in first && '-' !in second
    ensures Split(first + "-" + second, '-') == [first, second]
  {
    JoinTwo(first, second, '-');
    SplitJoinRoundTrip([first, second], '-');
  }

  /** A text that splits into two dates parses into the interval they bound. */
  lemma ParseOfParts(s: string, first: string, second: string, strptime: string -> Option<int>, d1: int, d2: int)
    requires Split(StripSpaces(s), '-') == [first, second]
    requires strptime(first) == Some(d1) && strptime(second) == Some(d2)
    ensures ParseDateInterval(s, strptime) == Some(DateInterval(Instant(d1, 0), Instant(d2, 86399)))
  {
  }

  /**
   * Conversely, two space-free, dash-free texts that parse as dates always give an
   * interval, whatever their order: a start after the end is returned as it is.
   */
  lemma ParseOfTwoDates(first: string, second: string, strptime: string -> Option<int>, d1: int, d2: int)
    requires '-' !in first && '-' !in second && ' ' !in first && ' ' !in second
    requires strptime(first) == Some(d1) && strptime(second) == Some(d2)
    ensures ParseDateInterval(first + "-" + second, strptime)
         == Some(DateInterval(Instant(d1, 0), Instant(d2, SecondsPerDay - 1)))
    ensures d1 > d2 ==> !NotAfter(ParseDateInterval(first + "-" + second, strptime).value.start,
                                  ParseDateInterval(first + "-" + second, strptime).value.end)
  {
    var s := first + "-" + second;
    assert ' ' !in s;
    SplitAroundDash(first, second);
    ParseOfParts(s, first, second, strptime, d1, d2);
  }
}
