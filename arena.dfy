/** The views the arena page derives from the engine state, and the page's
    own two interval-driven counters. */
module Arena {
  import opened Wrappers
  import opened Simulation
  import Ranking

  // ---------------------------------------------------------------------
  // formatTime

  predicate IsDigit(c: char) { '0' <= c <= '9' }

  predicate AllDigits(s: string) { forall i :: 0 <= i < |s| ==> IsDigit(s[i]) }

  function DigitChar(d: nat): (c: char)
    requires d < 10
    ensures IsDigit(c) && c as int - '0' as int == d
  {
    ('0' as int + d) as char
  }

  /** `n.toString()` for a non-negative integer: its decimal digits. */
  function DecimalString(n: nat): (r: string)
    ensures |r| >= 1 && AllDigits(r)
    ensures n < 10 <==> |r| == 1
    ensures n < 100 ==> |r| <= 2
    ensures r[0] == '0' <==> n == 0
  {
    if n < 10 then [DigitChar(n)] else DecimalString(n / 10) + [DigitChar(n % 10)]
  }

  /** The number a string of decimal digits denotes. */
  function DecimalValue(s: string): nat
    requires AllDigits(s)
  {
    if s == [] then 0 else DecimalValue(s[..|s| - 1]) * 10 + (s[|s| - 1] as int - '0' as int)
  }

  lemma {:induction false} DecimalRoundTrip(n: nat)
    ensures DecimalValue(DecimalString(n)) == n
  {
    if n >= 10 {
      var s := DecimalString(n);
      assert s[..|s| - 1] == DecimalString(n / 10);
      DecimalRoundTrip(n / 10);
    }
  }

  lemma {:induction false} LeadingZero(s: string)
    requires AllDigits(s)
    ensures AllDigits(['0'] + s) && DecimalValue(['0'] + s) == DecimalValue(s)
  {
    if s != [] {
      var z := ['0'] + s;
      assert z[..|z| - 1] == ['0'] + s[..|s| - 1];
      LeadingZero(s[..|s| - 1]);
    }
  }

  /** `padStart(2, '0')`. */
  function PadTwo(s: string): string
  {
    if |s| == 0 then "00" else if |s| == 1 then "0" + s else s
  }

  /** Padding reaches two characters, keeps the string as its suffix and
      puts only '0' before it. */
  lemma PadTwoShape(s: string)
    ensures |PadTwo(s)| == if |s| < 2 then 2 else |s|
    ensures PadTwo(s)[|PadTwo(s)| - |s|..] == s
    ensures forall i :: 0 <= i < |PadTwo(s)| - |s| ==> PadTwo(s)[i] == '0'
  {
  }

  /** The hours, minutes and seconds of a count of seconds. */
  function SplitTime(seconds: nat): (r: (nat, nat, nat))
    ensures r.0 * 3600 + r.1 * 60 + r.2 == seconds
    ensures r.1 < 60 && r.2 < 60
    ensures seconds < 360000 ==> r.0 < 100
  {
    (seconds / 3600, (seconds % 3600) / 60, seconds % 60)
  }

  /** A padded field still denotes its number. */
  lemma PadTwoValue(n: nat)
    ensures AllDigits(PadTwo(DecimalString(n)))
    ensures DecimalValue(PadTwo(DecimalString(n))) == n
  {
    var d := DecimalString(n);
    DecimalRoundTrip(n);
    if |d| < 2 {
      assert PadTwo(d) == ['0'] + d;
      LeadingZero(d);
    }
  }

  /** One field of the clock: `n.toString().padStart(2, '0')`. */
  function Field(n: nat): (r: string)
    ensures |r| >= 2 && AllDigits(r) && DecimalValue(r) == n
    ensures n < 100 ==> |r| == 2
  {
    PadTwoValue(n);
    PadTwo(DecimalString(n))
  }

  /** Colons before the last two two-character fields. */
  predicate ClockShaped(r: string)
  {
    |r| >= 8 && r[|r| - 3] == ':' && r[|r| - 6] == ':'
  }

  /** Three fields joined by colons; the hours field may be wider than
      two characters, the other two are exactly two. */
  function Joined(hh: string, mm: string, ss: string): (r: string)
    requires |mm| == 2 && |ss| == 2
    ensures |r| == |hh| + 6
    ensures |hh| >= 2 ==> ClockShaped(r)
  {
    hh + ":" + mm + ":" + ss
  }

  /** The clock text of hours, minutes and seconds. */
  function Clock(h: nat, m: nat, s: nat): (r: string)
    requires m < 60 && s < 60
    ensures ClockShaped(r)
    ensures h < 100 ==> |r| == 8
  {
    Joined(Field(h), Field(m), Field(s))
  }

  /** `formatTime`: `HH:MM:SS`, each field at least two digits wide. */
  function FormatTime(seconds: nat): (r: string)
    ensures ClockShaped(r)
    ensures seconds < 360000 ==> |r| == 8
  {
    var t := SplitTime(seconds);
    Clock(t.0, t.1, t.2)
  }

  /** Reads a displayed time back: the hours field, then two two-digit
      fields, separated by colons. */
  function ParseTime(r: string): Option<nat>
  {
    if ClockShaped(r)
       && AllDigits(r[..|r| - 6]) && AllDigits(r[|r| - 5..|r| - 3]) && AllDigits(r[|r| - 2..])
    then Some(Seconds(r[..|r| - 6], r[|r| - 5..|r| - 3], r[|r| - 2..]))
    else None
  }

  /** The seconds that hour, minute and second fields denote. */
  function Seconds(h: string, m: string, s: string): nat
    requires AllDigits(h) && AllDigits(m) && AllDigits(s)
  {
    DecimalValue(h) * 3600 + DecimalValue(m) * 60 + DecimalValue(s)
  }

  /** Parsing three digit fields joined by colons gives what they denote. */
  lemma ParseJoined(hh: string, mm: string, ss: string)
    requires |hh| >= 2 && |mm| == 2 && |ss| == 2
    requires AllDigits(hh) && AllDigits(mm) && AllDigits(ss)
    ensures ParseTime(Joined(hh, mm, ss)) == Some(Seconds(hh, mm, ss))
  {
    var r := Joined(hh, mm, ss);
    assert r[..|r| - 6] == hh;
    assert r[|r| - 5..|r| - 3] == mm;
    assert r[|r| - 2..] == ss;
  }

  /** The clock text of three fields parses back to the seconds they make. */
  lemma ClockRoundTrip(h: nat, m: nat, s: nat)
    requires m < 60 && s < 60
    ensures ParseTime(Clock(h, m, s)) == Some(h * 3600 + m * 60 + s)
  {
    var hh, mm, ss := Field(h), Field(m), Field(s);
    assert Seconds(hh, mm, ss) == h * 3600 + m * 60 + s;
    ParseJoined(hh, mm, ss);
    assert Clock(h, m, s) == Joined(hh, mm, ss);
  }

  /** The displayed time determines the seconds it was made from. */
  lemma FormatTimeRoundTrip(seconds: nat)
    ensures ParseTime(FormatTime(seconds)) == Some(seconds)
  {
    var t := SplitTime(seconds);
    ClockRoundTrip(t.0, t.1, t.2);
  }

  // ---------------------------------------------------------------------
  // Winner and game over

  /** `[...teams].sort((a, b) => b.score - a.score)[0]`; undefined when the
      roster is empty. */
  function Winner(teams: seq<Team>): (w: Option<Team>)
    ensures w.Some? <==> |teams| > 0
    ensures w.Some? ==> w.value in teams
    ensures w.Some? ==> forall j :: 0 <= j < |teams| ==> w.value.score >= teams[j].score
  {
    if |teams| == 0 then None
    else
      Ranking.HeadIsBest(teams);
      Some(Ranking.SortByScore(teams)[0])
  }

  /** The winner is the first team in roster order with the top score: on
      a tie, the one listed first. */
  lemma WinnerIsFirstBest(teams: seq<Team>)
    requires |teams| > 0
    ensures Winner(teams) == Some(teams[Ranking.FirstBest(teams)])
  {
    Ranking.SortHeadIsFirstBest(teams);
  }

  /** The game-over overlay: `gameTime >= 60 && winner`. */
  function GameOverShown(gameTime: int, teams: seq<Team>): (shown: bool)
    ensures shown <==> gameTime >= EpisodeLength && |teams| > 0
  {
    gameTime >= EpisodeLength && Winner(teams).Some?
  }

  // ---------------------------------------------------------------------
  // Derived views

  /** `teams.some(t => t.status === 'flagged')`. */
  function ActiveAlert(teams: seq<Team>): (alert: bool)
    ensures alert <==> exists i :: 0 <= i < |teams| && teams[i].status == Flagged
  {
    if teams == [] then false
    else teams[0].status == Flagged || ActiveAlert(teams[1..])
  }

  /** `teams.flatMap(t => t.logs)`. */
  function FlatLogs(teams: seq<Team>): seq<string>
  {
    if teams == [] then [] else teams[0].logs + FlatLogs(teams[1..])
  }

  lemma {:induction false} FlatLogsLength(teams: seq<Team>)
    requires forall i :: 0 <= i < |teams| ==> |teams[i].logs| <= LogCapacity
    ensures |FlatLogs(teams)| <= LogCapacity * |teams|
  {
    if teams != [] {
      FlatLogsLength(teams[1..]);
    }
  }

  function Reversed<T>(s: seq<T>): (r: seq<T>)
    ensures |r| == |s|
    ensures forall i :: 0 <= i < |s| ==> r[i] == s[|s| - 1 - i]
  {
    if s == [] then [] else [s[|s| - 1]] + Reversed(s[..|s| - 1])
  }

  /** The log panel: `logs.slice(-10).reverse()`, newest first. */
  function DerivedLogs(teams: seq<Team>): (r: seq<string>)
    ensures |r| == MinI(10, |FlatLogs(teams)|)
    ensures forall i :: 0 <= i < |r| ==> r[i] == FlatLogs(teams)[|FlatLogs(teams)| - 1 - i]
  {
    Reversed(LastN(FlatLogs(teams), 10))
  }

  /** `t.velocity[i]`: undefined past the end of the window. */
  function SampleAt(v: seq<real>, i: nat): Option<real>
  {
    if i < |v| then Some(v[i]) else None
  }

  function Ids(teams: seq<Team>): set<string>
  {
    set j | 0 <= j < |teams| :: teams[j].id
  }

  predicate DistinctIds(teams: seq<Team>)
  {
    forall j, k :: 0 <= j < k < |teams| ==> teams[j].id != teams[k].id
  }

  /** The per-team values of chart point `i`: `teams.forEach(t => point[t.id] = t.velocity[i])`,
      a later team overwriting an earlier one with the same id. */
  function PointValues(teams: seq<Team>, i: nat): (m: map<string, Option<real>>)
    ensures m.Keys == Ids(teams)
  {
    if teams == [] then map[]
    else
      var front := teams[..|teams| - 1];
      assert Ids(teams) == Ids(front) + {teams[|teams| - 1].id} by {
        assert forall j :: 0 <= j < |front| ==> front[j] == teams[j];
      }
      PointValues(front, i)[teams[|teams| - 1].id := SampleAt(teams[|teams| - 1].velocity, i)]
  }

  datatype ChartPoint = ChartPoint(time: nat, values: map<string, Option<real>>)

  /** `velocityData`: ten points, point `i` holding every team's `i`-th sample. */
  function VelocityData(teams: seq<Team>): (r: seq<ChartPoint>)
    ensures |r| == WindowLength
    ensures forall i :: 0 <= i < |r| ==> r[i].time == i && r[i].values.Keys == Ids(teams)
  {
    seq(WindowLength, (i: int) requires 0 <= i => ChartPoint(i, PointValues(teams, i)))
  }

  /** With distinct ids, point `i` maps each team to its own `i`-th sample. */
  lemma {:induction false} PointValuesOf(teams: seq<Team>, i: nat, j: nat)
    requires DistinctIds(teams) && j < |teams|
    ensures PointValues(teams, i)[teams[j].id] == SampleAt(teams[j].velocity, i)
  {
    if j < |teams| - 1 {
      var front := teams[..|teams| - 1];
      assert front[j] == teams[j];
      PointValuesOf(front, i, j);
    }
  }

  /** The engine's roster never repeats an id. */
  lemma RosterIdsDistinct(teams: seq<Team>)
    requires RosterOk(teams)
    ensures DistinctIds(teams)
  {
    var ids := seq(|teams|, k requires 0 <= k < |teams| => teams[k].id);
    assert ids == ["alpha", "beta", "gamma", "delta", "epsilon"];
  }

  /** On the engine's roster every point is defined for every team. */
  lemma VelocityDataOfRoster(teams: seq<Team>, i: nat, j: nat)
    requires RosterOk(teams) && i < WindowLength && j < |teams|
    ensures VelocityData(teams)[i].values[teams[j].id] == Some(teams[j].velocity[i])
  {
    RosterIdsDistinct(teams);
    PointValuesOf(teams, i, j);
  }

  // ---------------------------------------------------------------------
  // The page's counters

  /** Number of camera feeds. */
  const FeedCount: nat := 5

  /** `timeLeft` and `focusedIndex`, each stepped by its own interval. */
  class ArenaClock {
    var timeLeft: int
    var focusedIndex: int

    ghost predicate Valid()
      reads this
    {
      0 <= timeLeft <= 7200 && 0 <= focusedIndex < FeedCount
    }

    constructor ()
      ensures Valid() && timeLeft == 7200 && focusedIndex == 2
    {
      timeLeft, focusedIndex := 7200, 2;
    }

    /** The one-second countdown, saturating at zero. */
    method CountDown()
      requires Valid()
      modifies this
      ensures Valid()
      ensures timeLeft == if old(timeLeft) > 0 then old(timeLeft) - 1 else 0
      ensures focusedIndex == old(focusedIndex)
    {
      timeLeft := if timeLeft > 0 then timeLeft - 1 else 0;
    }

    /** The ten-second camera cycle. */
    method CycleCamera()
      requires Valid()
      modifies this
      ensures Valid()
      ensures focusedIndex == (old(focusedIndex) + 1) % FeedCount
      ensures timeLeft == old(timeLeft)
    {
      focusedIndex := (focusedIndex + 1) % FeedCount;
    }

    /** Clicking one of the other feeds focuses it. */
    method Focus(i: nat)
      requires Valid() && i < FeedCount
      modifies this
      ensures Valid()
      ensures focusedIndex == i && timeLeft == old(timeLeft)
    {
      focusedIndex := i;
    }

    /** The header clock. */
    method Display() returns (text: string)
      requires Valid()
      ensures text == FormatTime(timeLeft)
      ensures |text| == 8 && ParseTime(text) == Some(timeLeft)
    {
      FormatTimeRoundTrip(timeLeft);
      text := FormatTime(timeLeft);
    }
  }
}
