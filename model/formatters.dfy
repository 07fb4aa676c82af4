/** Display helpers of src/core/formatters.ts: the 0-10 efficiency score and
    its colour, durations in hours and minutes, a trip's efficiency percentile
    and the guarded number formatter. */
module Formatters {
  import opened Wrappers
  import opened Records
  import JsText

  // ------------------------------------------------------------ score

  /** `Math.max(0, Math.min(10, x))`. */
  function Clamp10(x: real): (r: real)
    ensures 0.0 <= r <= 10.0
    ensures 0.0 <= x <= 10.0 ==> r == x
    ensures x < 0.0 ==> r == 0.0
    ensures x > 10.0 ==> r == 10.0
  {
    if x < 0.0 then 0.0 else if x > 10.0 then 10.0 else x
  }

  /** `calculateScore(efficiency, minEff, maxEff)`: 5 for a falsy efficiency
      (`None` is `null`, `undefined` or `NaN`; 0 is falsy too) or a degenerate
      range; otherwise the position of the efficiency from the worst (0) to the
      best (10) value, clamped. */
  function Score(efficiency: Option<real>, minEff: real, maxEff: real): (r: real)
    ensures 0.0 <= r <= 10.0
    ensures efficiency.None? || efficiency == Some(0.0) || maxEff == minEff ==> r == 5.0
  {
    if efficiency.None? || efficiency == Some(0.0) || maxEff == minEff then 5.0
    else Clamp10((maxEff - efficiency.value) / (maxEff - minEff) * 10.0)
  }

  /** The best value of the range scores 10, the worst 0 and the midpoint 5. */
  lemma ScoreEndpoints(minEff: real, maxEff: real)
    requires minEff != maxEff
    ensures minEff != 0.0 ==> Score(Some(minEff), minEff, maxEff) == 10.0
    ensures maxEff != 0.0 ==> Score(Some(maxEff), minEff, maxEff) == 0.0
    ensures minEff + maxEff != 0.0 ==> Score(Some((minEff + maxEff) / 2.0), minEff, maxEff) == 5.0
  {
    var d := maxEff - minEff;
    assert d / d == 1.0;
    assert (maxEff - maxEff) / d == 0.0;
    var mid := (minEff + maxEff) / 2.0;
    assert maxEff - mid == d / 2.0;
    assert (d / 2.0) / d == 0.5;
  }

  /** Over an increasing range, a higher consumption never scores higher. */
  lemma ScoreMonotone(e1: real, e2: real, minEff: real, maxEff: real)
    requires minEff < maxEff && e1 <= e2 && e1 != 0.0 && e2 != 0.0
    ensures Score(Some(e1), minEff, maxEff) >= Score(Some(e2), minEff, maxEff)
  {
    var d := maxEff - minEff;
    assert (maxEff - e1) / d >= (maxEff - e2) / d by {
      assert (maxEff - e1) - (maxEff - e2) == e2 - e1;
      assert (maxEff - e1) / d - (maxEff - e2) / d == (e2 - e1) / d;
    }
  }

  /** `Math.round(x)`: halves round up. */
  function Round(x: real): int {
    (x + 0.5).Floor
  }

  datatype Rgb = Rgb(red: int, green: int, blue: int)

  /** `getScoreColor(score)`: orange to green from 5 up (blue 0), red to orange
      below 5 (blue 41). */
  function ScoreColor(score: real): (c: Rgb)
    ensures c.blue == (if score >= 5.0 then 0 else 41)
  {
    if score >= 5.0 then
      var ratio := (score - 5.0) / 5.0;
      Rgb(Round(255.0 - ratio * 155.0), Round(165.0 + ratio * 90.0), 0)
    else
      var ratio := score / 5.0;
      Rgb(Round(234.0 + ratio * 21.0), Round(ratio * 165.0), 41)
  }

  /** The colour scale's fixed points: green at 10, orange at 5, red at 0. */
  lemma ScoreColorEndpoints()
    ensures ScoreColor(10.0) == Rgb(100, 255, 0)
    ensures ScoreColor(5.0) == Rgb(255, 165, 0)
    ensures ScoreColor(0.0) == Rgb(234, 0, 41)
  {
    assert (100.0 + 0.5).Floor == 100;
    assert (255.0 + 0.5).Floor == 255;
    assert (165.0 + 0.5).Floor == 165;
    assert (234.0 + 0.5).Floor == 234;
    assert (0.0 + 0.5).Floor == 0;
  }

  // ------------------------------------------------------------ duration

  /** JavaScript's `x % y` on numbers: the remainder takes the sign of `x`. */
  function Trunc(v: real): int {
    if v >= 0.0 then v.Floor else -((-v).Floor)
  }

  function JsRem(x: real, y: real): real
    requires y != 0.0
  {
    x - y * Trunc(x / y) as real
  }

  datatype Duration = ZeroMin | HoursMinutes(hours: int, minutes: int) | MinutesOnly(minutes: int)

  /** `formatDuration(seconds)`: '0 min' for a falsy input, 'Hh Mmin' when the
      whole hours are positive, else 'M min'. */
  function FormatDuration(seconds: Option<real>): (r: Duration)
    ensures seconds.None? || seconds == Some(0.0) ==> r == ZeroMin
    ensures r.HoursMinutes? ==> r.hours > 0
  {
    if seconds.None? || seconds == Some(0.0) then ZeroMin
    else
      var s := seconds.value;
      var hours := (s / 3600.0).Floor;
      var minutes := (JsRem(s, 3600.0) / 60.0).Floor;
      if hours > 0 then HoursMinutes(hours, minutes) else MinutesOnly(minutes)
  }

  /** For a positive duration, the hours and minutes shown are the whole hours
      and the whole minutes of the rest: they account for all of it but less
      than a minute. */
  lemma FormatDurationExact(s: real)
    requires s > 0.0
    ensures var r := FormatDuration(Some(s));
      var h := if r.HoursMinutes? then r.hours else 0;
      !r.ZeroMin? && 0 <= r.minutes < 60
      && (h * 3600 + r.minutes * 60) as real <= s < (h * 3600 + r.minutes * 60 + 60) as real
  {
    var h := (s / 3600.0).Floor;
    assert Trunc(s / 3600.0) == h;
    assert h as real <= s / 3600.0 < h as real + 1.0;
    assert h as real * 3600.0 <= s < h as real * 3600.0 + 3600.0;
    var rest := JsRem(s, 3600.0);
    assert 0.0 <= rest < 3600.0;
    var m := (rest / 60.0).Floor;
    assert m as real <= rest / 60.0 < m as real + 1.0;
    assert m as real * 60.0 <= rest < m as real * 60.0 + 60.0;
  }

  /** The text shown for a duration. */
  function DurationText(d: Duration): string {
    match d
    case ZeroMin => "0 min"
    case HoursMinutes(h, m) => JsText.IntToString(h) + "h " + JsText.IntToString(m) + "min"
    case MinutesOnly(m) => JsText.IntToString(m) + " min"
  }

  // ------------------------------------------------------------ percentile

  /** `(t.electricity / t.trip) * 100`, `None` when it is `NaN` (no energy value). */
  function EffOf(t: Trip): Option<real>
    requires t.trip.Some? && t.trip.value != 0.0
  {
    if t.electricity.Some? then Some(t.electricity.value / t.trip.value * 100.0) else None
  }

  /** `t.trip >= 1 && t.electricity !== 0`: a missing energy value passes. */
  predicate PercentileValid(t: Trip) {
    t.trip.Some? && t.trip.value >= 1.0 && ElecNonZero(t)
  }

  /** The trip's own efficiency: 999 when its distance is not positive. */
  function OwnEff(t: Trip): Option<real> {
    if t.trip.Some? && t.trip.value > 0.0 then EffOf(t) else Some(999.0)
  }

  /** Comparison with `NaN` is false. */
  predicate LessThan(a: Option<real>, b: Option<real>) {
    a.Some? && b.Some? && a.value < b.value
  }

  function ValidTrips(all: seq<Trip>): (v: seq<Trip>)
    ensures |v| <= |all|
    ensures forall t :: t in v <==> t in all && PercentileValid(t)
  {
    if all == [] then []
    else (if PercentileValid(all[0]) then [all[0]] else []) + ValidTrips(all[1..])
  }

  /** How many valid trips have a strictly lower consumption than `own`. */
  function BetterCount(valid: seq<Trip>, own: Option<real>): (n: nat)
    requires forall t :: t in valid ==> PercentileValid(t)
    ensures n <= |valid|
  {
    if valid == [] then 0
    else
      assert valid[0] in valid && PercentileValid(valid[0]);
      (if LessThan(EffOf(valid[0]), own) then 1 else 0) + BetterCount(valid[1..], own)
  }

  /** `calculatePercentile(trip, allTrips)` as written: 50 without a trip or
      with an empty list, else the rounded share of valid trips that did
      better. With no valid trip the share is 0/0 and the result is `NaN`,
      modelled as `None`. */
  function PercentileAsWritten(trip: Option<Trip>, all: seq<Trip>): (r: Option<int>)
    ensures trip.None? || all == [] ==> r == Some(50)
  {
    if trip.None? || all == [] then Some(50)
    else
      var valid := ValidTrips(all);
      if valid == [] then None
      else Some(Round(BetterCount(valid, OwnEff(trip.value)) as real / |valid| as real * 100.0))
  }

  /** A list of trips all shorter than a kilometre gives `NaN`. */
  lemma PercentileNaNWitness()
    ensures var t := Trip(Some(0.5), Some(1.0), 0.0, 0.0, "20240101", "202401", 0, 0);
      PercentileAsWritten(Some(t), [t]).None?
  {
    var t := Trip(Some(0.5), Some(1.0), 0.0, 0.0, "20240101", "202401", 0, 0);
    assert ValidTrips([t]) == [];
  }

  /** The percentile with the neutral 50 also when no trip is valid: always a
      whole number from 0 to 100, and the same as the original wherever that is
      a number. */
  function Percentile(trip: Option<Trip>, all: seq<Trip>): (r: int)
    ensures 0 <= r <= 100
    ensures trip.None? || all == [] || ValidTrips(all) == [] ==> r == 50
    ensures PercentileAsWritten(trip, all).Some? ==> r == PercentileAsWritten(trip, all).value
  {
    if trip.None? || all == [] then 50
    else
      var valid := ValidTrips(all);
      if valid == [] then 50
      else
        var share := BetterCount(valid, OwnEff(trip.value)) as real / |valid| as real;
        assert 0.0 <= share <= 1.0;
        Round(share * 100.0)
  }

  // ------------------------------------------------------------ numbers

  /** `formatNumber(num, decimals)`: '0' for `null`, `undefined` or `NaN`, else
      `toFixed(decimals)`, whose text is represented by the number itself. */
  datatype NumberText = ZeroText | Fixed(value: real, decimals: int)

  function FormatNumber(num: Option<real>, decimals: int): (r: NumberText)
    ensures r.ZeroText? <==> num.None?
    ensures r.Fixed? ==> r.value == num.value && r.decimals == decimals
  {
    if num.None? then ZeroText else Fixed(num.value, decimals)
  }
}
