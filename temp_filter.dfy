/**
 * The temperature filter both daemons apply to the lines printed by `sensors`
 * (chowfan.py:90-101, repeated at chofwan.py:21-31), stated as functions over
 * the lines already read, and the reductions of the kept readings to one value.
 *
 * A line whose stripped text is an ignored sensor name raises the
 * `ignore_next` flag; the next line carrying a temperature (that same line
 * included) is dropped and lowers the flag again. Readings are integer
 * tenths of a degree: the pattern captures exactly one decimal digit.
 */
module TempFilter {
  import opened Wrappers
  import opened SensorsOutput

  /** What the filter loop looks at on one line. */
  datatype SensorLine = SensorLine(ignoredHeader: bool, temp: Option<nat>)

  /** `line.strip() in ignore_sensors`, and `re.search` of the temperature pattern. */
  function Classify(line: string, ignore: seq<string>): SensorLine {
    SensorLine(Strip(line) in ignore, TempMatch(line))
  }

  function ClassifyAll(lines: seq<string>, ignore: seq<string>): (r: seq<SensorLine>)
    ensures |r| == |lines|
  {
    if lines == [] then [] else ClassifyAll(Init(lines), ignore) + [Classify(Last(lines), ignore)]
  }

  lemma {:induction false} ClassifyAllAt(lines: seq<string>, ignore: seq<string>, k: nat)
    requires k < |lines|
    ensures ClassifyAll(lines, ignore)[k] == Classify(lines[k], ignore)
  {
    if k < |lines| - 1 {
      ClassifyAllAt(Init(lines), ignore, k);
    }
  }

  function Init<T>(s: seq<T>): seq<T>
    requires s != []
  {
    s[..|s| - 1]
  }

  function Last<T>(s: seq<T>): T
    requires s != []
  {
    s[|s| - 1]
  }

  /** The `ignore_next` flag once the loop has consumed all of `ls`. */
  function IgnoreNext(ls: seq<SensorLine>): (r: bool)
    ensures r ==> ls != [] && Last(ls).temp.None?
    ensures r ==> exists j :: 0 <= j < |ls| && ls[j].ignoredHeader
  {
    if ls == [] then false
    else if Last(ls).temp.Some? then false
    else IgnoreNext(Init(ls)) || Last(ls).ignoredHeader
  }

  /** Whether the temperature on the last line, if it has one, is dropped. */
  predicate DropsLast(ls: seq<SensorLine>)
    requires ls != []
  {
    IgnoreNext(Init(ls)) || Last(ls).ignoredHeader
  }

  /** The list `temps` that the loop builds, in line order. */
  function KeptTemps(ls: seq<SensorLine>): (r: seq<nat>)
    ensures |r| <= |ls|
  {
    if ls == [] then []
    else
      var m := Last(ls).temp;
      KeptTemps(Init(ls)) + if m.Some? && !DropsLast(ls) then [m.value] else []
  }

  /** How the loop state moves when line `i` is consumed after `lines[..i]`. */
  lemma FilterStep(lines: seq<string>, ignore: seq<string>, i: nat)
    requires i < |lines|
    ensures var ls, l := ClassifyAll(lines[..i], ignore), Classify(lines[i], ignore);
      && IgnoreNext(ClassifyAll(lines[..i + 1], ignore))
           == (if l.temp.Some? then false else IgnoreNext(ls) || l.ignoredHeader)
      && KeptTemps(ClassifyAll(lines[..i + 1], ignore))
           == KeptTemps(ls) + if l.temp.Some? && !(IgnoreNext(ls) || l.ignoredHeader) then [l.temp.value] else []
  {
    var ls, l := ClassifyAll(lines[..i], ignore), Classify(lines[i], ignore);
    var pre := lines[..i + 1];
    assert Init(pre) == lines[..i] && Last(pre) == lines[i];
    assert ClassifyAll(pre, ignore) == ls + [l];
    assert Init(ls + [l]) == ls && Last(ls + [l]) == l;
  }

  /** Every temperature the pattern finds, one per matching line, in line order. */
  function AllTemps(ls: seq<SensorLine>): seq<nat> {
    if ls == [] then []
    else
      var m := Last(ls).temp;
      AllTemps(Init(ls)) + if m.Some? then [m.value] else []
  }

  /** Whether `a` can be obtained from `b` by deleting elements. */
  predicate IsSubsequence<T(==)>(a: seq<T>, b: seq<T>) {
    if a == [] then true
    else if b == [] then false
    else (Last(a) == Last(b) && IsSubsequence(Init(a), Init(b))) || IsSubsequence(a, Init(b))
  }

  lemma {:induction false} SubsequenceLength<T>(a: seq<T>, b: seq<T>)
    requires IsSubsequence(a, b)
    ensures |a| <= |b|
  {
    if a != [] {
      if Last(a) == Last(b) && IsSubsequence(Init(a), Init(b)) {
        SubsequenceLength(Init(a), Init(b));
      } else {
        SubsequenceLength(a, Init(b));
      }
    }
  }

  /** The filter keeps the line order and only ever removes readings. */
  lemma {:induction false} KeptTempsIsSubsequence(ls: seq<SensorLine>)
    ensures IsSubsequence(KeptTemps(ls), AllTemps(ls))
    ensures |KeptTemps(ls)| <= |AllTemps(ls)|
  {
    if ls != [] {
      KeptTempsIsSubsequence(Init(ls));
      var k, a := KeptTemps(Init(ls)), AllTemps(Init(ls));
      var m := Last(ls).temp;
      if m.Some? {
        if DropsLast(ls) {
          assert KeptTemps(ls) == k;
          assert Init(a + [m.value]) == a;
        } else {
          assert Init(k + [m.value]) == k && Init(a + [m.value]) == a;
        }
      } else {
        assert KeptTemps(ls) == k && AllTemps(ls) == a;
      }
    }
    SubsequenceLength(KeptTemps(ls), AllTemps(ls));
  }

  /** The number of lines carrying a temperature. */
  function MatchingLines(ls: seq<SensorLine>): nat {
    if ls == [] then 0
    else MatchingLines(Init(ls)) + if Last(ls).temp.Some? then 1 else 0
  }

  lemma {:induction false} AllTempsLength(ls: seq<SensorLine>)
    ensures |AllTemps(ls)| == MatchingLines(ls)
  {
    if ls != [] {
      AllTempsLength(Init(ls));
    }
  }

  /** Never more readings than lines carrying a temperature. */
  lemma KeptTempsBound(ls: seq<SensorLine>)
    ensures |KeptTemps(ls)| <= MatchingLines(ls)
  {
    KeptTempsIsSubsequence(ls);
    AllTempsLength(ls);
  }

  /** Without an ignored header among the lines, every reading is kept. */
  lemma {:induction false} KeptAllWithoutHeaders(ls: seq<SensorLine>)
    requires forall k :: 0 <= k < |ls| ==> !ls[k].ignoredHeader
    ensures !IgnoreNext(ls)
    ensures KeptTemps(ls) == AllTemps(ls)
  {
    if ls != [] {
      assert forall k :: 0 <= k < |Init(ls)| ==> Init(ls)[k] == ls[k];
      KeptAllWithoutHeaders(Init(ls));
      assert !ls[|ls| - 1].ignoredHeader;
    }
  }

  /** With an empty `ignore_sensors`, the filter returns every matched reading. */
  lemma KeptAllWithEmptyIgnoreList(lines: seq<string>)
    ensures KeptTemps(ClassifyAll(lines, [])) == AllTemps(ClassifyAll(lines, []))
  {
    var ls := ClassifyAll(lines, []);
    forall k | 0 <= k < |ls| ensures !ls[k].ignoredHeader {
      ClassifyAllAt(lines, [], k);
    }
    KeptAllWithoutHeaders(ls);
  }

  /** No line of `ls[j..n]` carries a temperature. */
  predicate NoTempBetween(ls: seq<SensorLine>, j: int, n: int)
    requires 0 <= j && n <= |ls|
  {
    forall k :: j <= k < n ==> ls[k].temp.None?
  }

  /** Some ignored header at or before line `n - 1` is not yet followed by a reading before `n`. */
  predicate HeaderPending(ls: seq<SensorLine>, n: int)
    requires 0 <= n <= |ls|
  {
    exists j :: 0 <= j < n && ls[j].ignoredHeader && NoTempBetween(ls, j, n)
  }

  /**
   * The flag is raised exactly when some ignored header has not yet been
   * followed by a line carrying a temperature.
   */
  lemma {:induction false} IgnoreNextIff(ls: seq<SensorLine>)
    ensures IgnoreNext(ls) <==> HeaderPending(ls, |ls|)
  {
    if ls != [] {
      var init, n := Init(ls), |ls|;
      IgnoreNextIff(init);
      assert forall k :: 0 <= k < |init| ==> init[k] == ls[k];
      if ls[n - 1].temp.Some? {
        forall j | 0 <= j < n ensures !NoTempBetween(ls, j, n) {
          assert !ls[n - 1].temp.None?;
        }
      } else if IgnoreNext(init) {
        var j :| 0 <= j < n - 1 && init[j].ignoredHeader && NoTempBetween(init, j, n - 1);
        assert ls[j].ignoredHeader && NoTempBetween(ls, j, n);
      } else if ls[n - 1].ignoredHeader {
        assert NoTempBetween(ls, n - 1, n);
      } else {
        forall j | 0 <= j < n && ls[j].ignoredHeader ensures !NoTempBetween(ls, j, n) {
          assert j < n - 1;
          assert !NoTempBetween(init, j, n - 1);
        }
      }
    }
  }

  /**
   * The reading on line `i` is dropped exactly when an ignored header at some
   * line `j <= i` (line `i` itself included) comes before it with no other
   * reading in between: one header suppresses exactly the next reading.
   */
  lemma DropsLineIff(ls: seq<SensorLine>, i: nat)
    requires i < |ls|
    ensures DropsLast(ls[..i + 1]) <==>
      exists j :: 0 <= j <= i && ls[j].ignoredHeader && NoTempBetween(ls, j, i)
  {
    var pre := ls[..i + 1];
    assert Init(pre) == ls[..i] && Last(pre) == ls[i];
    IgnoreNextIff(ls[..i]);
    assert forall k :: 0 <= k < i ==> ls[..i][k] == ls[k];
    if exists j :: 0 <= j <= i && ls[j].ignoredHeader && NoTempBetween(ls, j, i) {
      var j :| 0 <= j <= i && ls[j].ignoredHeader && NoTempBetween(ls, j, i);
      if j < i {
        assert NoTempBetween(ls[..i], j, i);
      }
    }
    if IgnoreNext(ls[..i]) {
      var j :| 0 <= j < i && ls[..i][j].ignoredHeader && NoTempBetween(ls[..i], j, i);
      assert NoTempBetween(ls, j, i);
    }
    if ls[i].ignoredHeader {
      assert NoTempBetween(ls, i, i);
    }
  }

  // ---------------------------------------------------------------------
  // Reductions of the kept readings
  // ---------------------------------------------------------------------

  /** Python's `max(temps)` behind an `if not temps: return` guard. */
  function MaxOf(temps: seq<int>): (r: Option<int>)
    ensures r.None? <==> temps == []
    ensures r.Some? ==> r.value in temps && forall k :: 0 <= k < |temps| ==> temps[k] <= r.value
  {
    if temps == [] then None
    else
      var rest := MaxOf(Init(temps));
      if rest.Some? && rest.value >= Last(temps) then rest else Some(Last(temps))
  }

  function MinOf(temps: seq<int>): (r: Option<int>)
    ensures r.None? <==> temps == []
    ensures r.Some? ==> r.value in temps && forall k :: 0 <= k < |temps| ==> r.value <= temps[k]
  {
    if temps == [] then None
    else
      var rest := MinOf(Init(temps));
      if rest.Some? && rest.value <= Last(temps) then rest else Some(Last(temps))
  }

  /** Python's `sum`: the readings added from the left, starting at 0. */
  function SumFromLeft(temps: seq<int>): int {
    if temps == [] then 0 else temps[0] + SumFromLeft(temps[1..])
  }

  /** Adding from the left, the last reading comes last. */
  lemma {:induction false} SumFromLeftSnoc(temps: seq<int>)
    requires temps != []
    ensures SumFromLeft(temps) == SumFromLeft(Init(temps)) + Last(temps)
  {
    if |temps| > 1 {
      SumFromLeftSnoc(temps[1..]);
      assert Init(temps[1..]) == Init(temps)[1..];
    }
  }

  /** `sum(temps)`, added from the right: the same total as adding from the left. */
  function Sum(temps: seq<int>): (r: int)
    ensures r == SumFromLeft(temps)
  {
    if temps == [] then 0
    else
      SumFromLeftSnoc(temps);
      Sum(Init(temps)) + Last(temps)
  }

  lemma {:induction false} SumBounds(temps: seq<int>, lo: int, hi: int)
    requires forall k :: 0 <= k < |temps| ==> lo <= temps[k] <= hi
    ensures |temps| * lo <= Sum(temps) <= |temps| * hi
  {
    if temps != [] {
      var init := Init(temps);
      SumBounds(init, lo, hi);
      assert Sum(temps) == Sum(init) + Last(temps);
      assert |temps| * lo == |init| * lo + lo && |temps| * hi == |init| * hi + hi;
    }
  }

  /**
   * `sum(temps) / len(temps)` behind an `if not temps: return` guard, computed
   * exactly: the mean lies between the smallest and the largest reading.
   */
  function Mean(temps: seq<int>): (r: Option<real>)
    ensures r.None? <==> temps == []
    ensures r.Some? ==> MinOf(temps).value as real <= r.value <= MaxOf(temps).value as real
  {
    if temps == [] then None
    else
      var n, lo, hi := |temps|, MinOf(temps).value, MaxOf(temps).value;
      SumBounds(temps, lo, hi);
      MeanBetween(Sum(temps), n, lo, hi);
      Some(Sum(temps) as real / n as real)
  }

  lemma MeanBetween(sum: int, n: int, lo: int, hi: int)
    requires n > 0 && n * lo <= sum <= n * hi
    ensures lo as real <= sum as real / n as real <= hi as real
  {
    assert (n * lo) as real == n as real * lo as real;
    assert (n * hi) as real == n as real * hi as real;
  }
}
