// The FortniteLatencyMonitor page: a once-a-second round trip to a server,
// graded, colour-banded and drawn on a rolling 60-sample chart.
module LatencyMonitor {
  import opened Prelude

  const HistorySize := 60

  /** `getStatus(ping)`: strict thresholds 30, 60 and 100. */
  datatype Status = Competitive | Good | Moderate | Lag

  function StatusOf(ping: int): Status
  {
    if ping < 30 then Competitive
    else if ping < 60 then Good
    else if ping < 100 then Moderate
    else Lag
  }

  /** The colour band of `updateUI`: inclusive thresholds 30, 60 and 100. */
  datatype Band = Optimal | Stable | Playable | Critical

  function BandOf(ping: int): Band
  {
    if ping <= 30 then Optimal
    else if ping <= 60 then Stable
    else if ping <= 100 then Playable
    else Critical
  }

  function Label(b: Band): string
  {
    match b
    case Optimal => "OPTIMAL // COMPETITIVE"
    case Stable => "STABLE // STANDARD"
    case Playable => "MODERATE // PLAYABLE"
    case Critical => "CRITICAL LATENCY"
  }

  datatype StatusClass = StatusGood | StatusWarning | StatusLag

  function ClassOf(b: Band): StatusClass
  {
    match b
    case Optimal => StatusGood
    case Stable => StatusGood
    case Playable => StatusWarning
    case Critical => StatusLag
  }

  function ChartColour(b: Band): string
  {
    match b
    case Optimal => "#00ff9d"
    case Stable => "#00f0ff"
    case Playable => "#ffaa00"
    case Critical => "#ff003c"
  }

  /** The band each status name stands for. */
  function Named(s: Status): Band
  {
    match s
    case Competitive => Optimal
    case Good => Stable
    case Moderate => Playable
    case Lag => Critical
  }

  /**
   * The status computed from a ping and the band shown for it agree on
   * every ping except exactly 30, 60 and 100 ms, where `<` and `<=` split.
   */
  lemma StatusAndBandAgree(ping: int)
    ensures Named(StatusOf(ping)) == BandOf(ping) <==> ping !in {30, 60, 100}
  {
  }

  /** `calculateGrade(ping)`. */
  datatype Grade = S | APlus | A | BPlus | B | C | D | F

  function GradeOf(ping: int): Grade
  {
    if ping <= 10 then S
    else if ping <= 20 then APlus
    else if ping <= 30 then A
    else if ping <= 40 then BPlus
    else if ping <= 50 then B
    else if ping <= 70 then C
    else if ping <= 100 then D
    else F
  }

  /** The grade's position from best (0) to worst (7). */
  function Rank(g: Grade): nat
  {
    match g
    case S => 0
    case APlus => 1
    case A => 2
    case BPlus => 3
    case B => 4
    case C => 5
    case D => 6
    case F => 7
  }

  /** A slower ping never earns a better grade. */
  lemma GradeMonotone(p: int, q: int)
    requires p <= q
    ensures Rank(GradeOf(p)) <= Rank(GradeOf(q))
  {
  }

  /**
   * The grade lines up with the band: an A or better is green, F is red
   * and nothing else is; the C grade straddles the 60 ms border of the
   * cyan and orange bands.
   */
  lemma GradeWithinBand(ping: int)
    ensures Rank(GradeOf(ping)) <= 2 <==> BandOf(ping) == Optimal
    ensures GradeOf(ping) == F <==> BandOf(ping) == Critical
    ensures GradeOf(ping) == D ==> BandOf(ping) == Playable
    ensures GradeOf(ping) == C ==> BandOf(ping) in {Stable, Playable}
  {
  }

  /** The jitter of a sample: its distance to the previous one, or 0 while that is still 0. */
  function Jitter(lastLatency: int, latency: int): (r: nat)
    ensures lastLatency == 0 ==> r == 0
    ensures lastLatency != 0 ==> (r == latency - lastLatency || r == lastLatency - latency)
  {
    if lastLatency != 0 then
      if latency >= lastLatency then latency - lastLatency else lastLatency - latency
    else 0
  }

  /** A jitter's colour: green under 5 ms, orange under 15 ms, red otherwise. */
  datatype JitterColour = JitterGreen | JitterOrange | JitterRed

  function JitterColourOf(jitter: int): JitterColour
  {
    if jitter < 5 then JitterGreen
    else if jitter < 15 then JitterOrange
    else JitterRed
  }

  /** Jitter is symmetric once both samples are non-zero. */
  lemma JitterSymmetric(a: int, b: int)
    requires a != 0 && b != 0
    ensures Jitter(a, b) == Jitter(b, a)
  {
  }

  /** `Math.max(floor, ...values)`. */
  function MaxWith(floor: int, values: seq<int>): (r: int)
    ensures r >= floor
    ensures forall i :: 0 <= i < |values| ==> values[i] <= r
    ensures r == floor || r in values
  {
    if values == [] then floor
    else
      var m := MaxWith(floor, values[..|values| - 1]);
      var last := values[|values| - 1];
      if last > m then last else m
  }

  /** The y coordinate of a sample on a chart of height `h`: 10 px above the bottom, 80% of the height for the scale. */
  function PlotY(value: int, maxPing: int, h: real): real
    requires maxPing > 0
  {
    h - (value as real / maxPing as real) * h * 0.8 - 10.0
  }

  /** Every non-negative sample up to the scale's top is drawn in the chart's band [0.2 h - 10, h - 10]. */
  lemma PlotWithinChart(value: int, maxPing: int, h: real)
    requires 0 <= value <= maxPing && 0 < maxPing && h >= 0.0
    ensures h * 0.2 - 10.0 <= PlotY(value, maxPing, h) <= h - 10.0
  {
    var n := value as real / maxPing as real;
    assert 0.0 <= n <= 1.0;
    var k := h * 0.8;
    assert n * h * 0.8 == n * k;
    assert 0.0 <= n * k;
    assert n * k <= k by {
      assert (1.0 - n) * k >= 0.0;
    }
  }

  /** The chart's scale, `Math.max(100, ...history)`, keeps every drawn sample on the chart. */
  lemma ChartScaleFits(history: seq<int>, h: real)
    requires forall i :: 0 <= i < |history| ==> history[i] >= 0
    requires h >= 0.0
    ensures var m := MaxWith(100, history);
      m >= 100 && forall i :: 0 <= i < |history| ==> h * 0.2 - 10.0 <= PlotY(history[i], m, h) <= h - 10.0
  {
    var m := MaxWith(100, history);
    forall i | 0 <= i < |history|
      ensures h * 0.2 - 10.0 <= PlotY(history[i], m, h) <= h - 10.0
    {
      PlotWithinChart(history[i], m, h);
    }
  }

  /** What the gauge shows. */
  datatype Display =
    | Idle
    | Offline                                             // "ERR", "CONNECTION LOST", grade "OFF"
    | Reading(ping: int, band: Band, grade: Grade, jitter: nat, jitterColour: JitterColour)

  /** The page's monitor state. */
  class Monitor {
    var isRunning: bool
    /** The start button is disabled once pressed. */
    var buttonDisabled: bool
    var lastLatency: int
    var history: seq<int>
    var display: Display

    /** Sixty samples on the chart, none of them negative. */
    predicate Valid()
      reads this
    {
      |history| == HistorySize && forall i :: 0 <= i < |history| ==> history[i] >= 0
    }

    constructor ()
      ensures Valid() && !isRunning && !buttonDisabled
      ensures lastLatency == 0 && history == seq(HistorySize, i => 0) && display == Idle
    {
      isRunning := false;
      buttonDisabled := false;
      lastLatency := 0;
      history := seq(HistorySize, i => 0);
      display := Idle;
    }

    /** The start button's click: ignored once running; otherwise the button is disabled while the link is set up. */
    method ClickStart()
      modifies this`buttonDisabled
      ensures !old(isRunning) ==> buttonDisabled
      ensures old(isRunning) ==> buttonDisabled == old(buttonDisabled)
    {
      if isRunning {
        return;
      }
      buttonDisabled := true;
    }

    /** The 1.5 s timer after the click: monitoring starts, and never stops afterwards. */
    method Connected()
      modifies this`isRunning
      ensures isRunning
    {
      isRunning := true;
    }

    /**
     * A successful round trip of `latency` ms: the jitter against the
     * previous sample, the gauge, and the chart shifted by one sample.
     * Nothing happens unless the monitor is running.
     */
    method Sample(latency: nat)
      requires Valid()
      modifies this`lastLatency, this`history, this`display
      ensures Valid()
      ensures !isRunning ==> unchanged(this)
      ensures isRunning ==>
        lastLatency == latency
        && history == old(history)[1..] + [latency]
        && display == Reading(latency, BandOf(latency), GradeOf(latency),
                              Jitter(old(lastLatency), latency), JitterColourOf(Jitter(old(lastLatency), latency)))
    {
      if !isRunning {
        return;
      }
      var jitter := 0;
      if lastLatency != 0 {
        jitter := if latency >= lastLatency then latency - lastLatency else lastLatency - latency;
      }
      lastLatency := latency;
      display := Reading(latency, BandOf(latency), GradeOf(latency), jitter, JitterColourOf(jitter));
      history := history[1..] + [latency];
    }

    /** A failed round trip: the gauge reads offline; the chart and the last latency stay. */
    method SampleFailed()
      modifies this`display
      ensures !isRunning ==> display == old(display)
      ensures isRunning ==> display == Offline
    {
      if !isRunning {
        return;
      }
      display := Offline;
    }
  }

  /** After `n` samples the chart ends with those samples, oldest first. */
  lemma {:induction false} ChartKeepsLatest(history: seq<int>, samples: seq<int>)
    requires 0 < |history| && |samples| <= |history|
    ensures Shifted(history, samples)[|history| - |samples|..] == samples
    decreases |samples|
  {
    if samples != [] {
      var init := samples[..|samples| - 1];
      ChartKeepsLatest(history, init);
      var prev := Shifted(history, init);
      var next := prev[1..] + [samples[|samples| - 1]];
      assert next[|history| - |samples|..] == prev[|history| - |init|..] + [samples[|samples| - 1]];
      assert init + [samples[|samples| - 1]] == samples;
    }
  }

  /** The chart after the samples `samples` have been shifted in one by one. */
  function Shifted(history: seq<int>, samples: seq<int>): (r: seq<int>)
    requires |history| > 0
    ensures |r| == |history|
  {
    if samples == [] then history
    else Shifted(history, samples[..|samples| - 1])[1..] + [samples[|samples| - 1]]
  }
}
