/**
 * `parse_duration` (main.py:97-103) and the two commands that gate on its
 * result, `mute` (main.py:254-256) and `giveaway` (main.py:373-374).
 *
 * The source applies `re.findall(r'(\d+)([dhms])', s.lower())`, adds every
 * value to its unit and builds a `datetime.timedelta`. Durations are modelled
 * as whole seconds; `timedelta`'s overflow (more than 999999999 days raises
 * `OverflowError`) is the `TooLarge` outcome.
 */
module Duration {
  import opened Text

  predicate IsUnit(c: char) { c == 'd' || c == 'h' || c == 'm' || c == 's' }

  /** The unit letters of the pattern's `[dhms]`. */
  type Unit = c: char | IsUnit(c) witness 'd'

  /** Seconds in one `d`, `h`, `m` or `s`. */
  function UnitSeconds(u: Unit): nat
  {
    if u == 'd' then 86400 else if u == 'h' then 3600 else if u == 'm' then 60 else 1
  }

  /** One `(value, unit)` pair returned by `re.findall`. */
  datatype Match = Match(value: nat, unit: Unit)

  /** Length of the run of digits at the start of `s`, which is maximal. */
  function DigitRun(s: string): (n: nat)
    ensures n <= |s| && AllDigits(s[..n])
    ensures forall i :: 0 <= i < n ==> IsDigit(s[i])
    ensures n < |s| ==> !IsDigit(s[n])
    ensures s != [] && IsDigit(s[0]) ==> n >= 1
  {
    if s == [] || !IsDigit(s[0]) then 0
    else
      var n := 1 + DigitRun(s[1..]);
      assert s[..n] == [s[0]] + s[1..][..n - 1];
      n
  }

  /**
   * `re.findall(r'(\d+)([dhms])', s)`. The regex can only succeed at the start
   * of a digit run and `\d+` is greedy (backtracking to a shorter run leaves a
   * digit where the unit is needed), so a match is a maximal digit run
   * followed by a unit letter, and scanning resumes after that letter.
   */
  function Matches(s: string): seq<Match>
    decreases |s|
  {
    if s == [] then []
    else if !IsDigit(s[0]) then Matches(s[1..])
    else
      var n := DigitRun(s);
      if n < |s| && IsUnit(s[n]) then [Match(DecimalValue(s[..n]), s[n])] + Matches(s[n + 1..])
      else Matches(s[n..])
  }

  /** Some digit of `s` is immediately followed by a unit letter. */
  predicate HasUnitAfterDigit(s: string) {
    exists j :: 0 < j < |s| && IsDigit(s[j - 1]) && IsUnit(s[j])
  }

  /** Dropping a prefix that holds no digit-unit pair, not even one reaching past it, keeps the answer. */
  lemma HasUnitAfterDigitFrom(s: string, k: nat)
    requires 1 <= k <= |s|
    requires forall j :: 0 < j <= k && j < |s| ==> !(IsDigit(s[j - 1]) && IsUnit(s[j]))
    ensures HasUnitAfterDigit(s) <==> HasUnitAfterDigit(s[k..])
  {
    var t := s[k..];
    if HasUnitAfterDigit(s) {
      var j :| 0 < j < |s| && IsDigit(s[j - 1]) && IsUnit(s[j]);
      assert IsDigit(t[j - k - 1]) && IsUnit(t[j - k]);
    }
    if HasUnitAfterDigit(t) {
      var j :| 0 < j < |t| && IsDigit(t[j - 1]) && IsUnit(t[j]);
      assert IsDigit(s[k + j - 1]) && IsUnit(s[k + j]);
    }
  }

  /** `findall` finds nothing exactly when no digit is directly followed by a unit letter. */
  lemma {:induction false} MatchesEmptyIff(s: string)
    ensures Matches(s) == [] <==> !HasUnitAfterDigit(s)
    decreases |s|
  {
    if s == [] {
    } else if !IsDigit(s[0]) {
      MatchesEmptyIff(s[1..]);
      HasUnitAfterDigitFrom(s, 1);
    } else {
      var n := DigitRun(s);
      if n < |s| && IsUnit(s[n]) {
        assert IsDigit(s[n - 1]) && IsUnit(s[n]);
      } else {
        MatchesEmptyIff(s[n..]);
        HasUnitAfterDigitFrom(s, n);
      }
    }
  }

  /** A run of digits ends at the end of `x` only if `x` ends in a digit. */
  lemma {:induction false} DigitRunPrefix(x: string, y: string)
    requires x != [] && !IsDigit(x[|x| - 1])
    ensures DigitRun(x + y) == DigitRun(x)
  {
    if IsDigit(x[0]) {
      assert (x + y)[1..] == x[1..] + y;
      DigitRunPrefix(x[1..], y);
    }
  }

  /** Scanning `x + y` finds the matches of `x` and then those of `y`, when `x` does not end in a digit. */
  lemma {:induction false} MatchesConcat(x: string, y: string)
    requires x == [] || !IsDigit(x[|x| - 1])
    ensures Matches(x + y) == Matches(x) + Matches(y)
    decreases |x|, 1
  {
    if x == [] {
      assert x + y == y;
    } else if !IsDigit(x[0]) {
      assert (x + y)[1..] == x[1..] + y;
      MatchesConcat(x[1..], y);
    } else {
      MatchesConcatAtRun(x, y);
    }
  }

  /** `MatchesConcat` when `x` starts with a digit run, which ends inside `x`. */
  lemma {:induction false} MatchesConcatAtRun(x: string, y: string)
    requires x != [] && IsDigit(x[0]) && !IsDigit(x[|x| - 1])
    ensures Matches(x + y) == Matches(x) + Matches(y)
    decreases |x|, 0
  {
    var k, head := RunStep(x, y);
    var rest := x[k..];
    assert rest == [] || rest[|rest| - 1] == x[|x| - 1];
    MatchesConcat(rest, y);
    assert head + (Matches(rest) + Matches(y)) == (head + Matches(rest)) + Matches(y);
  }

  /**
   * The scan of `x` and of `x + y` make the same first step over the digit
   * run at the start of `x`: the same match, if any, then resuming at `k`.
   */
  lemma RunStep(x: string, y: string) returns (k: nat, head: seq<Match>)
    requires x != [] && IsDigit(x[0]) && !IsDigit(x[|x| - 1])
    ensures 0 < k <= |x|
    ensures Matches(x) == head + Matches(x[k..])
    ensures Matches(x + y) == head + Matches(x[k..] + y)
  {
    var xy := x + y;
    var n := DigitRun(x);
    DigitRunPrefix(x, y);
    assert n < |x| && xy[n] == x[n] && xy[..n] == x[..n];
    k := if IsUnit(x[n]) then n + 1 else n;
    head := if IsUnit(x[n]) then [Match(DecimalValue(x[..n]), x[n])] else [];
    assert xy[k..] == x[k..] + y;
    MatchesAfterRun(x);
    MatchesAfterRun(xy);
  }

  /** One step of the scan at a digit run: the match it makes, if any, then the scan after it. */
  lemma MatchesAfterRun(s: string)
    requires s != [] && IsDigit(s[0]) && DigitRun(s) < |s|
    ensures var n := DigitRun(s);
            Matches(s) == if IsUnit(s[n]) then [Match(DecimalValue(s[..n]), s[n])] + Matches(s[n + 1..])
                          else Matches(s[n..])
  {
  }

  /** The duration the matches add up to, in seconds. */
  function Total(ms: seq<Match>): nat
  {
    if ms == [] then 0
    else
      var m := ms[|ms| - 1];
      Total(ms[..|ms| - 1]) + m.value * UnitSeconds(m.unit)
  }

  lemma {:induction false} TotalConcat(a: seq<Match>, b: seq<Match>)
    ensures Total(a + b) == Total(a) + Total(b)
  {
    if b != [] {
      assert (a + b)[..|a + b| - 1] == a + b[..|b| - 1];
      TotalConcat(a, b[..|b| - 1]);
    } else {
      assert a + b == a;
    }
  }

  /** Sum of the values given with unit `u` (one entry of `delta_args`). */
  function UnitSum(ms: seq<Match>, u: char): nat {
    if ms == [] then 0
    else UnitSum(ms[..|ms| - 1], u) + (if ms[|ms| - 1].unit == u then ms[|ms| - 1].value else 0)
  }

  /**
   * Combining the four counters of `delta_args` into one `timedelta` gives
   * the total of the matches.
   */
  lemma {:induction false} TotalByUnit(ms: seq<Match>)
    ensures Total(ms) == UnitSum(ms, 'd') * 86400 + UnitSum(ms, 'h') * 3600 + UnitSum(ms, 'm') * 60 + UnitSum(ms, 's')
  {
    if ms != [] {
      TotalByUnit(ms[..|ms| - 1]);
    }
  }

  /** Largest day count `timedelta` accepts. */
  const MaxDays: nat := 999999999

  /** The outcome of `parse_duration`. */
  datatype Parsed =
    | NoMatch                 // returns None
    | TooLarge                // timedelta raises OverflowError
    | Duration(seconds: nat)  // a timedelta of this many seconds

  /** Total seconds written in `s`, whatever the outcome. */
  function WrittenSeconds(s: string): nat {
    Total(Matches(Lower(s)))
  }

  /** What `parse_duration(s)` returns, from the regex matches of `s.lower()`. */
  function DurationOf(s: string): (r: Parsed)
    ensures r == NoMatch <==> !HasUnitAfterDigit(Lower(s))
    ensures r.Duration? ==> r.seconds == WrittenSeconds(s) && r.seconds / 86400 <= MaxDays
    ensures r == TooLarge <==> HasUnitAfterDigit(Lower(s)) && WrittenSeconds(s) / 86400 > MaxDays
  {
    var ms := Matches(Lower(s));
    MatchesEmptyIff(Lower(s));
    if ms == [] then NoMatch
    else if Total(ms) / 86400 > MaxDays then TooLarge
    else Duration(Total(ms))
  }

  /**
   * `parse_duration` as the source runs it: the per-unit counters of
   * `delta_args` are accumulated in a loop over the matches, then combined.
   */
  method ParseDuration(s: string) returns (r: Parsed)
    ensures r == DurationOf(s)
  {
    var ms := Matches(Lower(s));
    if ms == [] {
      return NoMatch;
    }
    var days, hours, minutes, seconds := 0, 0, 0, 0;
    for i := 0 to |ms|
      invariant days == UnitSum(ms[..i], 'd') && hours == UnitSum(ms[..i], 'h')
      invariant minutes == UnitSum(ms[..i], 'm') && seconds == UnitSum(ms[..i], 's')
    {
      assert ms[..i + 1][..i] == ms[..i];
      var m := ms[i];
      if m.unit == 'd' {
        days := days + m.value;
      } else if m.unit == 'h' {
        hours := hours + m.value;
      } else if m.unit == 'm' {
        minutes := minutes + m.value;
      } else {
        seconds := seconds + m.value;
      }
    }
    assert ms[..|ms|] == ms;
    TotalByUnit(ms);
    var total := days * 86400 + hours * 3600 + minutes * 60 + seconds;
    if total / 86400 > MaxDays {
      r := TooLarge;
    } else {
      r := Duration(total);
    }
  }

  /**
   * Writing one duration after another adds them up, so repeated units
   * accumulate ("1h30m" + "45m" is 1h75m): the first part must not end in a
   * digit, or its last digits would run into the second part's number.
   */
  lemma DurationsAccumulate(x: string, y: string)
    requires x == [] || !IsDigit(x[|x| - 1])
    ensures WrittenSeconds(x + y) == WrittenSeconds(x) + WrittenSeconds(y)
  {
    LowerConcat(x, y);
    if x != [] {
      LowerKeepsDigits(x[|x| - 1]);
    }
    MatchesConcat(Lower(x), Lower(y));
    TotalConcat(Matches(Lower(x)), Matches(Lower(y)));
  }

  /** What a command does with the text it was given as a duration. */
  datatype Gate =
    | Refused             // replies that the format (or the length) is wrong
    | Raises              // an OverflowError escapes the command handler
    | Accepted(seconds: nat)

  /** The longest timeout the platform allows, 28 days. */
  const MaxTimeoutSeconds: nat := 28 * 86400

  /**
   * `mute` as written (main.py:254-256): `not duration` refuses None and a zero
   * timedelta, `duration.days > 28` refuses from 29 whole days on.
   */
  function MuteGate(s: string): (g: Gate)
    ensures g.Accepted? <==> DurationOf(s).Duration? && 0 < DurationOf(s).seconds < 29 * 86400
    ensures g.Accepted? ==> g.seconds == DurationOf(s).seconds
    ensures g == Raises <==> DurationOf(s) == TooLarge
  {
    match DurationOf(s)
    case NoMatch => Refused
    case TooLarge => Raises
    case Duration(t) => if t == 0 || t / 86400 > 28 then Refused else Accepted(t)
  }

  /**
   * `giveaway` (main.py:373-375): only None and a zero timedelta are refused,
   * and the end time `utcnow() + duration` raises `OverflowError` when it
   * falls after `datetime.max`; `horizon` is the number of whole seconds
   * from now until then.
   */
  function GiveawayGate(s: string, horizon: nat): (g: Gate)
    ensures g.Accepted? <==> DurationOf(s).Duration? && 0 < DurationOf(s).seconds <= horizon
    ensures g.Accepted? ==> g.seconds == WrittenSeconds(s)
    ensures g == Raises <==> DurationOf(s) == TooLarge || (DurationOf(s).Duration? && DurationOf(s).seconds > horizon)
  {
    match DurationOf(s)
    case NoMatch => Refused
    case TooLarge => Raises
    case Duration(t) => if t == 0 then Refused else if t > horizon then Raises else Accepted(t)
  }

  /** Both commands refuse a duration that adds up to zero, such as "0m". */
  lemma ZeroRefusedByBoth(s: string)
    requires HasUnitAfterDigit(Lower(s)) && WrittenSeconds(s) == 0
    ensures MuteGate(s) == Refused && forall horizon: nat :: GiveawayGate(s, horizon) == Refused
  {
  }

  /**
   * The mute guard lets through more than 28 days: "28d1h" passes
   * `duration.days > 28` although the reply promises at most 28 days and the
   * platform refuses a longer timeout.
   */
  lemma MuteGateAdmitsOverLimit()
    ensures MuteGate("28d1h") == Accepted(28 * 86400 + 3600)
    ensures 28 * 86400 + 3600 > MaxTimeoutSeconds
  {
    MatchesOf28d1h();
    var ms := [Match(28, 'd'), Match(1, 'h')];
    TotalByUnit(ms);
    assert ms[..1] == [Match(28, 'd')] && ms[..1][..0] == [];
    assert Total(ms) == 28 * 86400 + 3600;
  }

  lemma MatchesOf28d1h()
    ensures Matches(Lower("28d1h")) == [Match(28, 'd'), Match(1, 'h')]
  {
    var s := "28d1h";
    assert Lower(s) == s by {
      forall i | 0 <= i < |s|
        ensures LowerChar(s[i]) == s[i]
      {
      }
    }
    assert s == "28d" + "1h";
    MatchesConcat("28d", "1h");
    MatchesOf28d();
    MatchesOf1h();
  }

  lemma MatchesOf28d()
    ensures Matches("28d") == [Match(28, 'd')]
  {
    var s := "28d";
    assert s[1..] == "8d" && s[1..][1..] == "d";
    assert DigitRun("d") == 0;
    assert DigitRun("8d") == 1;
    assert DigitRun(s) == 2;
    assert s[..2] == "28" && "28"[..1] == "2" && "2"[..0] == [];
    assert DecimalValue("28") == 28;
    assert s[3..] == [];
  }

  lemma MatchesOf1h()
    ensures Matches("1h") == [Match(1, 'h')]
  {
    var s := "1h";
    assert s[1..] == "h";
    assert DigitRun("h") == 0;
    assert DigitRun(s) == 1;
    assert s[..1] == "1" && "1"[..0] == [];
    assert DecimalValue("1") == 1;
    assert s[2..] == [];
  }

  /** The guard the reply describes: at most 28 days. */
  function MuteGateIntended(s: string): (g: Gate)
    ensures g.Accepted? <==> DurationOf(s).Duration? && 0 < DurationOf(s).seconds <= MaxTimeoutSeconds
    ensures g.Accepted? ==> g.seconds == DurationOf(s).seconds
    ensures g == Raises <==> DurationOf(s) == TooLarge
  {
    match DurationOf(s)
    case NoMatch => Refused
    case TooLarge => Raises
    case Duration(t) => if t == 0 || t > MaxTimeoutSeconds then Refused else Accepted(t)
  }

  /** The intended guard never hands the platform more than 28 days, and agrees with the written one up to that limit. */
  lemma MuteGateIntendedWithinLimit(s: string)
    ensures MuteGateIntended(s).Accepted? ==> MuteGateIntended(s).seconds <= MaxTimeoutSeconds
    ensures DurationOf(s).Duration? && DurationOf(s).seconds <= MaxTimeoutSeconds ==> MuteGateIntended(s) == MuteGate(s)
  {
  }
}
