/**
 * Ordering by `DateTimeUTC`: the stable sort that `sorted(x, "DateTimeUTC")`
 * and `x.sort("DateTimeUTC")` stand for, and the recency selector
 * `get_most_recent_forecasts`, which sorts and takes the last element.
 */
module Recency {
  import opened Records

  /** Non-decreasing by `DateTimeUTC`. */
  ghost predicate SortedByTime(s: seq<Record>)
  {
    forall i, j :: 0 <= i < j < |s| ==> s[i].dateTimeUtc <= s[j].dateTimeUtc
  }

  /**
   * Inserts `x` after every element whose time is not later than its own:
   * a record never overtakes an earlier record with the same time.
   */
  function InsertByTime(x: Record, s: seq<Record>): (r: seq<Record>)
    requires SortedByTime(s)
    ensures SortedByTime(r)
    ensures multiset(r) == multiset(s) + multiset{x}
    ensures |r| == |s| + 1
    ensures r[0] == if |s| == 0 || x.dateTimeUtc < s[0].dateTimeUtc then x else s[0]
  {
    if |s| == 0 then [x]
    else if x.dateTimeUtc < s[0].dateTimeUtc then
      SortedCons(x, s);
      [x] + s
    else
      var rest := InsertByTime(x, s[1..]);
      SortedCons(s[0], rest);
      assert multiset([s[0]] + rest) == multiset(s) + multiset{x} by {
        assert s == [s[0]] + s[1..];
      }
      [s[0]] + rest
  }

  /** A record no later than the head of a sorted list can go in front of it. */
  lemma SortedCons(y: Record, s: seq<Record>)
    requires SortedByTime(s)
    requires |s| == 0 || y.dateTimeUtc <= s[0].dateTimeUtc
    ensures SortedByTime([y] + s)
  {
    var r := [y] + s;
    forall i, j | 0 <= i < j < |r| ensures r[i].dateTimeUtc <= r[j].dateTimeUtc {
      if i > 0 {
        assert r[i] == s[i - 1] && r[j] == s[j - 1];
      } else {
        assert r[j] == s[j - 1];
        assert s[0].dateTimeUtc <= s[j - 1].dateTimeUtc;
      }
    }
  }

  /** Stable sort by `DateTimeUTC`, inserting the input's elements left to right. */
  function SortByTime(s: seq<Record>): (r: seq<Record>)
    ensures SortedByTime(r)
    ensures multiset(r) == multiset(s)
    ensures |r| == |s|
  {
    if |s| == 0 then []
    else
      assert s == s[..|s| - 1] + [s[|s| - 1]];
      InsertByTime(s[|s| - 1], SortByTime(s[..|s| - 1]))
  }

  /** The records of `s` whose time is `t`, in order. */
  function AtTime(s: seq<Record>, t: int): seq<Record>
  {
    if |s| == 0 then []
    else (if s[0].dateTimeUtc == t then [s[0]] else []) + AtTime(s[1..], t)
  }

  /** A list with no record of time `t` has none to keep. */
  lemma {:induction false} AtTimeNone(s: seq<Record>, t: int)
    requires forall i :: 0 <= i < |s| ==> s[i].dateTimeUtc != t
    ensures AtTime(s, t) == []
  {
    if |s| > 0 {
      AtTimeNone(s[1..], t);
    }
  }

  /** Filtering by time distributes over concatenation. */
  lemma {:induction false} AtTimeAppend(a: seq<Record>, b: seq<Record>, t: int)
    ensures AtTime(a + b, t) == AtTime(a, t) + AtTime(b, t)
  {
    if |a| == 0 {
      assert a + b == b;
    } else {
      var head: seq<Record> := if a[0].dateTimeUtc == t then [a[0]] else [];
      assert (a + b)[1..] == a[1..] + b;
      AtTimeAppend(a[1..], b, t);
      assert head + (AtTime(a[1..], t) + AtTime(b, t)) == (head + AtTime(a[1..], t)) + AtTime(b, t);
    }
  }

  /** Inserting `x` puts it after every record of its own time already in the list. */
  lemma {:induction false} InsertByTimeAtTime(x: Record, s: seq<Record>, t: int)
    requires SortedByTime(s)
    ensures AtTime(InsertByTime(x, s), t) == AtTime(s, t) + (if x.dateTimeUtc == t then [x] else [])
  {
    if |s| == 0 {
      assert InsertByTime(x, s) == [x];
    } else if x.dateTimeUtc < s[0].dateTimeUtc {
      assert InsertByTime(x, s) == [x] + s;
      AtTimeLater(x, s, t);
    } else {
      var rest := InsertByTime(x, s[1..]);
      assert InsertByTime(x, s) == [s[0]] + rest;
      InsertByTimeAtTime(x, s[1..], t);
      AtTimeBehind(s, rest, x, t);
    }
  }

  /** Passing over the first record: it stays first among the records of its time. */
  lemma AtTimeBehind(s: seq<Record>, rest: seq<Record>, x: Record, t: int)
    requires |s| > 0
    requires AtTime(rest, t) == AtTime(s[1..], t) + (if x.dateTimeUtc == t then [x] else [])
    ensures AtTime([s[0]] + rest, t) == AtTime(s, t) + (if x.dateTimeUtc == t then [x] else [])
  {
    var head: seq<Record> := if s[0].dateTimeUtc == t then [s[0]] else [];
    var own: seq<Record> := if x.dateTimeUtc == t then [x] else [];
    var tail := AtTime(s[1..], t);
    assert AtTime([s[0]] + rest, t) == head + (tail + own) by {
      AtTimeCons(s[0], rest, t);
    }
    assert AtTime(s, t) + own == (head + tail) + own;
    assert head + (tail + own) == (head + tail) + own;
  }

  /** Filtering by time a list that starts with `x`. */
  lemma AtTimeCons(x: Record, s: seq<Record>, t: int)
    ensures AtTime([x] + s, t) == (if x.dateTimeUtc == t then [x] else []) + AtTime(s, t)
  {
    assert ([x] + s)[1..] == s;
  }

  /** A record strictly earlier than a sorted list goes first and is the only one of its time. */
  lemma AtTimeLater(x: Record, s: seq<Record>, t: int)
    requires SortedByTime(s) && |s| > 0 && x.dateTimeUtc < s[0].dateTimeUtc
    ensures AtTime([x] + s, t) == AtTime(s, t) + (if x.dateTimeUtc == t then [x] else [])
  {
    AtTimeCons(x, s, t);
    if x.dateTimeUtc == t {
      assert forall i :: 0 <= i < |s| ==> s[i].dateTimeUtc != t by {
        forall i | 0 <= i < |s| ensures s[i].dateTimeUtc != t {
          assert s[0].dateTimeUtc <= s[i].dateTimeUtc;
        }
      }
      AtTimeNone(s, t);
    }
  }

  /**
   * Stability: for every time, the records carrying it keep their input order
   * under the sort.
   */
  lemma {:induction false} SortByTimeStable(s: seq<Record>, t: int)
    ensures AtTime(SortByTime(s), t) == AtTime(s, t)
  {
    if |s| > 0 {
      var front := s[..|s| - 1];
      SortByTimeAtTimeSnoc(s, t);
      SortByTimeStable(front, t);
      AtTimeSnoc(s, t);
    }
  }

  /** Sorting one more record adds it after the sorted records of its time. */
  lemma SortByTimeAtTimeSnoc(s: seq<Record>, t: int)
    requires |s| > 0
    ensures var n := |s| - 1;
      AtTime(SortByTime(s), t) == AtTime(SortByTime(s[..n]), t) + (if s[n].dateTimeUtc == t then [s[n]] else [])
  {
    var n := |s| - 1;
    SortByTimeSnoc(s);
    InsertByTimeAtTime(s[n], SortByTime(s[..n]), t);
  }

  /** Filtering by time a non-empty list: its front filtered, then its last record if it has that time. */
  lemma AtTimeSnoc(s: seq<Record>, t: int)
    requires |s| > 0
    ensures var n := |s| - 1;
      AtTime(s, t) == AtTime(s[..n], t) + (if s[n].dateTimeUtc == t then [s[n]] else [])
  {
    var n := |s| - 1;
    assert s[..n] + [s[n]] == s;
    AtTimeAppend(s[..n], [s[n]], t);
    AtTimeCons(s[n], [], t);
    assert [s[n]] + [] == [s[n]];
  }

  /** The sort of a non-empty list inserts its last element into the sort of the rest. */
  lemma SortByTimeSnoc(s: seq<Record>)
    requires |s| > 0
    ensures SortByTime(s) == InsertByTime(s[|s| - 1], SortByTime(s[..|s| - 1]))
  {
  }

  /** `s[i]` has the latest time of `s`, and every record after it is strictly earlier. */
  ghost predicate IsLastLatest(s: seq<Record>, i: int)
  {
    && 0 <= i < |s|
    && (forall j :: 0 <= j < |s| ==> s[j].dateTimeUtc <= s[i].dateTimeUtc)
    && (forall j :: i < j < |s| ==> s[j].dateTimeUtc < s[i].dateTimeUtc)
  }

  /** The last element after inserting `x` into a sorted non-empty list. */
  lemma {:induction false} InsertByTimeLast(x: Record, s: seq<Record>)
    requires SortedByTime(s) && |s| > 0
    ensures var r := InsertByTime(x, s);
      r[|r| - 1] == if s[|s| - 1].dateTimeUtc <= x.dateTimeUtc then x else s[|s| - 1]
  {
    if x.dateTimeUtc < s[0].dateTimeUtc {
    } else if |s| > 1 {
      InsertByTimeLast(x, s[1..]);
    }
  }

  /** Appending a record that is at least as late as everything before it makes that record the last latest. */
  lemma AppendLatest(front: seq<Record>, x: Record, i': int)
    requires IsLastLatest(front, i') && front[i'].dateTimeUtc <= x.dateTimeUtc
    ensures IsLastLatest(front + [x], |front|)
  {
    var s := front + [x];
    forall j | 0 <= j < |s| ensures s[j].dateTimeUtc <= x.dateTimeUtc {
      if j < |front| { assert s[j] == front[j]; }
    }
  }

  /** Appending a record strictly earlier than the last latest keeps that position the last latest. */
  lemma AppendEarlier(front: seq<Record>, x: Record, i': int)
    requires IsLastLatest(front, i') && x.dateTimeUtc < front[i'].dateTimeUtc
    ensures IsLastLatest(front + [x], i')
  {
    var s := front + [x];
    forall j | 0 <= j < |s| ensures s[j].dateTimeUtc <= s[i'].dateTimeUtc {
      if j < |front| { assert s[j] == front[j]; }
    }
    forall j | i' < j < |s| ensures s[j].dateTimeUtc < s[i'].dateTimeUtc {
      if j < |front| { assert s[j] == front[j]; }
    }
  }

  /** Under the stable sort, the last element is the last record, in input order, with the latest time. */
  lemma {:induction false} SortByTimeLast(s: seq<Record>)
    requires |s| > 0
    ensures var r := SortByTime(s); exists i :: IsLastLatest(s, i) && r[|r| - 1] == s[i]
  {
    var n := |s| - 1;
    var front := s[..n];
    assert s == front + [s[n]];
    if n == 0 {
      assert SortByTime(s) == [s[0]];
      assert IsLastLatest(s, 0);
    } else {
      SortByTimeLast(front);
      var sf := SortByTime(front);
      var i' :| IsLastLatest(front, i') && sf[n - 1] == front[i'];
      SortByTimeSnocLast(front, s[n], i');
    }
  }

  /** Sorting one more record: its last element is the new record if it is at least as late, the old one otherwise. */
  lemma SortByTimeSnocLast(front: seq<Record>, x: Record, i': int)
    requires IsLastLatest(front, i')
    requires var sf := SortByTime(front); sf[|sf| - 1] == front[i']
    ensures var s, r := front + [x], SortByTime(front + [x]);
      exists i :: IsLastLatest(s, i) && r[|r| - 1] == s[i]
  {
    var s := front + [x];
    assert s[..|front|] == front;
    var sf := SortByTime(front);
    var r := InsertByTime(x, sf);
    assert SortByTime(s) == r;
    InsertByTimeLast(x, sf);
    if front[i'].dateTimeUtc <= x.dateTimeUtc {
      AppendLatest(front, x, i');
      assert r[|r| - 1] == s[|front|];
    } else {
      AppendEarlier(front, x, i');
      assert r[|r| - 1] == s[i'];
    }
  }

  /** At most one position satisfies `IsLastLatest`, so it pins the selected record down. */
  lemma LastLatestUnique(s: seq<Record>, i: int, j: int)
    requires IsLastLatest(s, i) && 0 <= j < |s| && j != i
    ensures !IsLastLatest(s, j)
  {
    if i < j {
      assert s[j].dateTimeUtc < s[i].dateTimeUtc;
    } else {
      assert s[j].dateTimeUtc <= s[i].dateTimeUtc;
    }
  }

  /**
   * `get_most_recent_forecasts`: `sorted(...)[-1]`. An empty list raises
   * IndexError; otherwise the result is the last record in input order
   * carrying the latest time.
   */
  function MostRecent(s: seq<Record>): (r: Result<Record>)
    ensures r.Err? <==> |s| == 0
    ensures r.Err? ==> r.error == IndexError
    ensures r.Ok? ==> exists i :: IsLastLatest(s, i) && r.value == s[i]
  {
    if |s| == 0 then Err(IndexError)
    else
      SortByTimeLast(s);
      var sorted := SortByTime(s);
      Ok(sorted[|sorted| - 1])
  }

  /** A one-element list yields its element. */
  lemma MostRecentSingleton(x: Record)
    ensures MostRecent([x]) == Ok(x)
  {
  }
}
