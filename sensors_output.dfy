/**
 * The text of one line printed by the `sensors` tool, and the three questions
 * the daemon asks of such a line: which temperature it reports (the pattern
 * `\+([0-9]+\.[0-9])°C`), which fan speed it reports (the pattern
 * `([0-9]+) RPM`), and what the line is once `str.strip()` has removed the
 * surrounding whitespace. Both patterns are searched for the way `re.search`
 * does: the leftmost position at which the pattern matches wins.
 */
module SensorsOutput {
  import opened Wrappers

  predicate IsDigit(c: char) {
    '0' <= c <= '9'
  }

  predicate AllDigits(s: string) {
    forall k :: 0 <= k < |s| ==> IsDigit(s[k])
  }

  /** End of the longest run of digits that starts at `i` (the greedy `[0-9]+`). */
  function DigitRunEnd(s: string, i: nat): (j: nat)
    requires i <= |s|
    ensures i <= j <= |s|
    ensures AllDigits(s[i..j])
    ensures j < |s| ==> !IsDigit(s[j])
    decreases |s| - i
  {
    if i < |s| && IsDigit(s[i]) then DigitRunEnd(s, i + 1) else i
  }

  /** The number a string of decimal digits denotes, as Python's `int()` reads it. */
  function DecimalValue(digits: string): (n: nat)
    requires AllDigits(digits)
    ensures digits != [] && digits[0] == '0' ==> n == DecimalValue(digits[1..])
  {
    if digits == [] then 0
    else
      var init := digits[..|digits| - 1];
      assert |digits| > 1 ==> digits[1..][..|digits| - 2] == init[1..];
      DecimalValue(init) * 10 + DigitValue(digits[|digits| - 1])
  }

  function DigitValue(c: char): nat
    requires IsDigit(c)
  {
    c as int - '0' as int
  }

  // ---------------------------------------------------------------------
  // Temperatures: `\+([0-9]+\.[0-9])°C`, captured value in tenths of a degree
  // ---------------------------------------------------------------------

  /**
   * The temperature the pattern captures when it is tried at position `i`.
   * The digit run before the dot is greedy; giving back digits cannot help,
   * since a digit never matches the literal dot, so the greedy run decides.
   */
  function TempAt(s: string, i: nat): Option<nat>
    requires i < |s|
  {
    if s[i] != '+' then None
    else
      var j := DigitRunEnd(s, i + 1);
      if j > i + 1 && j + 3 < |s| && s[j] == '.' && IsDigit(s[j + 1]) && s[j + 2] == '°' && s[j + 3] == 'C'
      then Some(DecimalValue(s[i + 1..j]) * 10 + DigitValue(s[j + 1]))
      else None
  }

  /** The leftmost temperature match at or after position `i`. */
  function TempFrom(s: string, i: nat): Option<nat>
    requires i <= |s|
    decreases |s| - i
  {
    if i == |s| then None
    else if TempAt(s, i).Some? then TempAt(s, i)
    else TempFrom(s, i + 1)
  }

  /** `TempFrom` finds the pattern at the leftmost position where it matches, and only there. */
  lemma {:induction false} TempFromIsLeftmost(s: string, i: nat)
    requires i <= |s|
    ensures var r := TempFrom(s, i);
      && (r.Some? ==> exists p :: i <= p < |s| && TempAt(s, p) == r && forall q :: i <= q < p ==> TempAt(s, q).None?)
      && (r.None? ==> forall q :: i <= q < |s| ==> TempAt(s, q).None?)
    decreases |s| - i
  {
    if i < |s| {
      var here := TempAt(s, i);
      if here.None? {
        TempFromIsLeftmost(s, i + 1);
        assert TempFrom(s, i) == TempFrom(s, i + 1);
        if TempFrom(s, i).Some? {
          var p :| i + 1 <= p < |s| && TempAt(s, p) == TempFrom(s, i) && forall q :: i + 1 <= q < p ==> TempAt(s, q).None?;
          assert forall q :: i <= q < p ==> TempAt(s, q).None?;
        }
      } else {
        assert TempFrom(s, i) == here;
      }
    }
  }

  /** Positions without a `+` cannot start a temperature. */
  lemma {:induction false} TempFromSkip(s: string, i: nat, j: nat)
    requires i <= j <= |s|
    requires forall k :: i <= k < j ==> s[k] != '+'
    ensures TempFrom(s, i) == TempFrom(s, j)
    decreases j - i
  {
    if i < j {
      assert TempAt(s, i) == None;
      TempFromSkip(s, i + 1, j);
    }
  }

  /** `re.search` of the temperature pattern on a whole line. */
  function TempMatch(line: string): (r: Option<nat>)
    ensures r.Some? ==> exists p :: 0 <= p < |line| && TempAt(line, p) == r && forall q :: 0 <= q < p ==> TempAt(line, q).None?
    ensures r.None? ==> forall q :: 0 <= q < |line| ==> TempAt(line, q).None?
  {
    TempFromIsLeftmost(line, 0);
    TempFrom(line, 0)
  }

  // ---------------------------------------------------------------------
  // Fan speed: `([0-9]+) RPM`
  // ---------------------------------------------------------------------

  /** The speed the pattern captures when it is tried at position `i`. */
  function RpmAt(s: string, i: nat): Option<nat>
    requires i < |s|
  {
    if !IsDigit(s[i]) then None
    else
      var j := DigitRunEnd(s, i);
      if j + 4 <= |s| && s[j..j + 4] == " RPM" then Some(DecimalValue(s[i..j])) else None
  }

  /** The leftmost speed match at or after position `i`. */
  function RpmFrom(s: string, i: nat): Option<nat>
    requires i <= |s|
    decreases |s| - i
  {
    if i == |s| then None
    else if RpmAt(s, i).Some? then RpmAt(s, i)
    else RpmFrom(s, i + 1)
  }

  /** `RpmFrom` finds the pattern at the leftmost position where it matches, and only there. */
  lemma {:induction false} RpmFromIsLeftmost(s: string, i: nat)
    requires i <= |s|
    ensures var r := RpmFrom(s, i);
      && (r.Some? ==> exists p :: i <= p < |s| && RpmAt(s, p) == r && forall q :: i <= q < p ==> RpmAt(s, q).None?)
      && (r.None? ==> forall q :: i <= q < |s| ==> RpmAt(s, q).None?)
    decreases |s| - i
  {
    if i < |s| {
      var here := RpmAt(s, i);
      if here.None? {
        RpmFromIsLeftmost(s, i + 1);
        assert RpmFrom(s, i) == RpmFrom(s, i + 1);
        if RpmFrom(s, i).Some? {
          var p :| i + 1 <= p < |s| && RpmAt(s, p) == RpmFrom(s, i) && forall q :: i + 1 <= q < p ==> RpmAt(s, q).None?;
          assert forall q :: i <= q < p ==> RpmAt(s, q).None?;
        }
      } else {
        assert RpmFrom(s, i) == here;
      }
    }
  }

  /** `re.search` of the speed pattern on a whole line. */
  function RpmMatch(line: string): (r: Option<nat>)
    ensures r.Some? ==> exists p :: 0 <= p < |line| && RpmAt(line, p) == r && forall q :: 0 <= q < p ==> RpmAt(line, q).None?
    ensures r.None? ==> forall q :: 0 <= q < |line| ==> RpmAt(line, q).None?
  {
    RpmFromIsLeftmost(line, 0);
    RpmFrom(line, 0)
  }

  // ---------------------------------------------------------------------
  // str.startswith and str.strip
  // ---------------------------------------------------------------------

  /** `str.startswith`: the line is the prefix followed by something. */
  predicate StartsWith(line: string, prefix: string)
    ensures StartsWith(line, prefix) ==> |prefix| <= |line| && line == prefix + line[|prefix|..]
    ensures forall rest :: line == prefix + rest ==> StartsWith(line, prefix)
  {
    |prefix| <= |line| && line[..|prefix|] == prefix
  }

  /** The characters for which Python's `str.isspace()` holds. */
  predicate IsSpace(c: char) {
    c == ' ' || '\t' <= c <= '\r' || '\U{1C}' <= c <= '\U{1F}' || c == '\U{85}' || c == '\U{A0}'
    || c == '\U{1680}' || '\U{2000}' <= c <= '\U{200A}' || c == '\U{2028}' || c == '\U{2029}'
    || c == '\U{202F}' || c == '\U{205F}' || c == '\U{3000}'
  }

  function TrimStart(s: string): string {
    if s != [] && IsSpace(s[0]) then TrimStart(s[1..]) else s
  }

  function TrimEnd(s: string): string {
    if s != [] && IsSpace(s[|s| - 1]) then TrimEnd(s[..|s| - 1]) else s
  }

  /** `TrimStart` drops the leading whitespace and nothing else. */
  lemma {:induction false} TrimStartSpec(s: string)
    ensures var r := TrimStart(s);
      && |r| <= |s| && r == s[|s| - |r|..]
      && (forall k :: 0 <= k < |s| - |r| ==> IsSpace(s[k]))
      && (r != [] ==> !IsSpace(r[0]))
  {
    if s != [] && IsSpace(s[0]) {
      var tail := s[1..];
      TrimStartSpec(tail);
      var r := TrimStart(tail);
      assert tail[|tail| - |r|..] == s[|s| - |r|..];
      forall k | 0 <= k < |s| - |r| ensures IsSpace(s[k]) {
        if k > 0 {
          assert s[k] == tail[k - 1];
        }
      }
    }
  }

  /** `TrimEnd` drops the trailing whitespace and nothing else. */
  lemma {:induction false} TrimEndSpec(s: string)
    ensures var r := TrimEnd(s);
      && |r| <= |s| && r == s[..|r|]
      && (forall k :: |r| <= k < |s| ==> IsSpace(s[k]))
      && (r != [] ==> !IsSpace(r[|r| - 1]))
  {
    if s != [] && IsSpace(s[|s| - 1]) {
      var init := s[..|s| - 1];
      TrimEndSpec(init);
      var r := TrimEnd(init);
      assert init[..|r|] == s[..|r|];
      forall k | |r| <= k < |s| ensures IsSpace(s[k]) {
        if k < |s| - 1 {
          assert s[k] == init[k];
        }
      }
    }
  }

  /** `str.strip()`: the line without its leading and trailing whitespace. */
  function Strip(s: string): (r: string)
    ensures |r| <= |s|
    ensures r != [] ==> !IsSpace(r[0]) && !IsSpace(r[|r| - 1])
  {
    TrimStartSpec(s);
    TrimEndSpec(TrimStart(s));
    TrimEnd(TrimStart(s))
  }

  /** `Strip` removes whitespace only, from both ends, and leaves none there. */
  lemma StripIsTrim(s: string)
    ensures var r := Strip(s);
      && (r != [] ==> !IsSpace(r[0]) && !IsSpace(r[|r| - 1]))
      && exists a, b ::
           && 0 <= a <= b <= |s| && r == s[a..b]
           && (forall k :: 0 <= k < a ==> IsSpace(s[k]))
           && (forall k :: b <= k < |s| ==> IsSpace(s[k]))
  {
    var t := TrimStart(s);
    var r := TrimEnd(t);
    TrimStartSpec(s);
    TrimEndSpec(t);
    var a := |s| - |t|;
    assert r == s[a..a + |r|];
    assert forall k :: a + |r| <= k < |s| ==> s[k] == t[k - a];
  }

  // ---------------------------------------------------------------------
  // Lines as `sensors` prints them
  // ---------------------------------------------------------------------

  /** The leftmost reading on a line wins, not the highest. */
  lemma TempOfCoreLine()
    ensures TempMatch("Core 0: +45.0°C (crit +98.0°C)") == Some(450)
  {
    var s := "Core 0: +45.0°C (crit +98.0°C)";
    assert s[8] == '+' && s[9] == '4' && s[10] == '5' && s[11] == '.' && s[12] == '0' && s[13] == '°' && s[14] == 'C';
    assert DigitRunEnd(s, 11) == 11;
    assert DigitRunEnd(s, 9) == 11;
    var digits := s[9..11];
    assert digits == ['4', '5'] && digits[..1] == ['4'];
    assert DecimalValue(digits[..1]) == 4;
    assert DecimalValue(digits) == 45;
    assert TempAt(s, 8) == Some(450);
    assert forall k :: 0 <= k < 8 ==> s[k] != '+';
    TempFromSkip(s, 0, 8);
  }

  /** The digits in the fan's name do not count: only a run followed by ` RPM` does. */
  lemma RpmOfFanLine()
    ensures RpmMatch("fan1: 2000 RPM") == Some(2000)
  {
    var s := "fan1: 2000 RPM";
    assert DigitRunEnd(s, 4) == 4;
    assert RpmAt(s, 3) == None by { assert s[4..8] != " RPM"; }
    assert DigitRunEnd(s, 6) == 10;
    assert s[10..14] == " RPM";
    assert s[6..10] == "2000";
    assert "2000"[..3] == "200" && "200"[..2] == "20" && "20"[..1] == "2";
    assert DecimalValue("2000") == 2000;
    assert RpmAt(s, 6) == Some(2000);
    assert RpmFrom(s, 3) == Some(2000);
  }

  /** A line on which ` RPM` never occurs has no speed match, whatever digits it holds. */
  lemma NoRpmWithoutUnit(line: string)
    requires forall j :: 0 <= j < |line| ==> !StartsWith(line[j..], " RPM")
    ensures RpmMatch(line) == None
  {
    forall p | 0 <= p < |line| ensures RpmAt(line, p).None? {
      if IsDigit(line[p]) {
        var j := DigitRunEnd(line, p);
        if j + 4 <= |line| {
          assert line[j..][..4] == line[j..j + 4];
        }
      }
    }
  }

  lemma NoRpmOnBareFanLine()
    ensures RpmMatch("fan1:") == None
  {
    var s := "fan1:";
    assert DigitRunEnd(s, 4) == 4;
    assert RpmAt(s, 3) == None;
  }
}
