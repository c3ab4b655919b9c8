/** The public dashboard's formatting and its bounded histories: address
    truncation, "time ago" buckets, the unit of a hashrate and the suffix of
    a difficulty, the effort gauge, and the sparkline and chart buffers that
    are pushed and shifted in place.

    JavaScript numbers are modelled as `real`s, which divide exactly; the
    `toFixed` rendering of the scaled value is not modelled. */
module Dashboard {
  import opened Wrappers
  import opened Text

  // ---------------------------------------------------------------------
  // Addresses

  /** `truncateAddress`: an absent or empty address, or one no longer than
      `start + end`, is returned as is; a longer one keeps its first `start`
      and last `end` characters around `...`. */
  function TruncateAddress(address: Option<string>, start: nat, end: nat): (r: Option<string>)
    ensures address.None? ==> r.None?
    ensures address.Some? && |address.value| <= start + end ==> r == address
    ensures address.Some? && |address.value| > start + end ==>
      && r.Some? && |r.value| == start + end + 3
      && r.value[..start] == address.value[..start]
      && r.value[start..start + 3] == "..."
      && r.value[start + 3..] == address.value[|address.value| - end..]
  {
    match address
    case None => None
    case Some(a) =>
      if a == [] || |a| <= start + end then address
      else Some(a[..start] + "..." + a[|a| - end..])
  }

  /** Truncating twice is truncating once: the shortened address is longer
      than `start + end`, and shortening it again keeps the same ends. */
  lemma {:induction false} TruncateIdempotent(address: Option<string>, start: nat, end: nat)
    ensures TruncateAddress(TruncateAddress(address, start, end), start, end) == TruncateAddress(address, start, end)
  {
    if address.Some? && |address.value| > start + end {
      var a := address.value;
      var r := TruncateAddress(address, start, end).value;
      assert r == a[..start] + "..." + a[|a| - end..];
      assert r[..start] == a[..start];
      assert r[|r| - end..] == a[|a| - end..];
    }
  }

  // ---------------------------------------------------------------------
  // Time ago

  datatype Ago = NoTime | SecondsAgo(n: int) | MinutesAgo(n: int) | HoursAgo(n: int) | DaysAgo(n: int)

  /** `formatTimeAgo` at `now`, both times in milliseconds: an absent
      timestamp shows `--`; otherwise the whole seconds elapsed, rounded
      down, pick the largest unit that fits, counted in whole units. */
  function TimeAgo(timestamp: Option<int>, now: int): (r: Ago)
    ensures timestamp.None? || timestamp == Some(0) <==> r == NoTime
  {
    if timestamp.None? || timestamp.value == 0 then NoTime
    else
      var seconds := (now - timestamp.value) / 1000;
      if seconds < 60 then SecondsAgo(seconds)
      else if seconds < 3600 then MinutesAgo(seconds / 60)
      else if seconds < 86400 then HoursAgo(seconds / 3600)
      else DaysAgo(seconds / 86400)
  }

  /** The text shown for a bucket. */
  function AgoText(a: Ago): (t: string)
    ensures t == "--" <==> a.NoTime?
    ensures !a.NoTime? ==> |t| >= 6 && t[|t| - 4..] == " ago"
  {
    match a
    case NoTime => "--"
    case SecondsAgo(n) => IntToString(n) + "s ago"
    case MinutesAgo(n) => IntToString(n) + "m ago"
    case HoursAgo(n) => IntToString(n) + "h ago"
    case DaysAgo(n) => IntToString(n) + "d ago"
  }

  /** The number shown is the count of whole units elapsed, and each bucket
      stays below the next unit: 1 to 59 minutes, 1 to 23 hours, at least
      one day. */
  lemma TimeAgoBuckets(timestamp: int, now: int)
    requires timestamp != 0
    ensures var s := (now - timestamp) / 1000; var r := TimeAgo(Some(timestamp), now);
      && s * 1000 <= now - timestamp < s * 1000 + 1000
      && (r.SecondsAgo? <==> s < 60) && (r.SecondsAgo? ==> r.n == s)
      && (r.MinutesAgo? ==> 1 <= r.n <= 59 && r.n * 60 <= s < r.n * 60 + 60)
      && (r.HoursAgo? ==> 1 <= r.n <= 23 && r.n * 3600 <= s < r.n * 3600 + 3600)
      && (r.DaysAgo? ==> 1 <= r.n && r.n * 86400 <= s < r.n * 86400 + 86400)
  {
  }

  // ---------------------------------------------------------------------
  // Hashrate units and difficulty suffixes

  const HashrateUnits := ["H/s", "KH/s", "MH/s", "GH/s", "TH/s", "PH/s"]

  function Pow1000(k: nat): (p: real)
    ensures p >= 1.0
  {
    if k == 0 then 1.0 else 1000.0 * Pow1000(k - 1)
  }

  /** A formatted hashrate: zero, or a value and the index of its unit. */
  datatype Rate = ZeroRate | Rate(value: real, unit: nat)
  {
    function UnitName(): string
      requires Rate? && unit < |HashrateUnits|
    {
      HashrateUnits[unit]
    }
  }

  /** `formatHashrate`: an absent or zero hashrate is `0 H/s`; otherwise
      the value is divided by 1000 while it is at least 1000, up to `PH/s`.
      The unit is the largest one, up to `PH/s`, that the hashrate reaches,
      and the value times the unit is the hashrate. */
  method FormatHashrate(hashrate: Option<real>) returns (r: Rate)
    ensures r == ZeroRate <==> hashrate.None? || hashrate.value == 0.0
    ensures r.Rate? ==> r.unit < |HashrateUnits| && r.value * Pow1000(r.unit) == hashrate.value
    ensures r.Rate? && r.unit < |HashrateUnits| - 1 ==> r.value < 1000.0
    ensures r.Rate? && r.unit > 0 ==> r.value >= 1.0
  {
    if hashrate.None? || hashrate.value == 0.0 {
      return ZeroRate;
    }
    var unitIndex := 0;
    var value := hashrate.value;
    while value >= 1000.0 && unitIndex < |HashrateUnits| - 1
      invariant 0 <= unitIndex < |HashrateUnits|
      invariant value * Pow1000(unitIndex) == hashrate.value
      invariant unitIndex > 0 ==> value >= 1.0
      decreases |HashrateUnits| - unitIndex
    {
      assert Pow1000(unitIndex + 1) == 1000.0 * Pow1000(unitIndex);
      value := value / 1000.0;
      unitIndex := unitIndex + 1;
    }
    return Rate(value, unitIndex);
  }

  datatype Suffix = NoSuffix | K | M | G | T
  {
    function Letter(): string {
      match this
      case NoSuffix => ""
      case K => "K"
      case M => "M"
      case G => "G"
      case T => "T"
    }

    function Scale(): real {
      match this
      case NoSuffix => 1.0
      case K => 1000.0
      case M => 1000000.0
      case G => 1000000000.0
      case T => 1000000000000.0
    }
  }

  /** `formatDifficulty`: an absent or zero difficulty is `--`; otherwise
      the first of T, G, M, K whose threshold the difficulty reaches, or no
      suffix, and the value scaled by it. */
  function FormatDifficulty(diff: Option<real>): (r: Option<(real, Suffix)>)
    ensures r.None? <==> diff.None? || diff.value == 0.0
    ensures r.Some? ==> r.value.0 * r.value.1.Scale() == diff.value
    ensures r.Some? ==> (r.value.1 == T <==> diff.value >= 1000000000000.0)
    ensures r.Some? && r.value.1 != T ==> r.value.0 < 1000.0
    ensures r.Some? && r.value.1 != NoSuffix ==> r.value.0 >= 1.0
  {
    if diff.None? || diff.value == 0.0 then None
    else
      var d := diff.value;
      var s := if d >= 1000000000000.0 then T
        else if d >= 1000000000.0 then G
        else if d >= 1000000.0 then M
        else if d >= 1000.0 then K
        else NoSuffix;
      Some((d / s.Scale(), s))
  }

  /** The suffix is the one a larger difficulty never lowers. */
  lemma DifficultySuffixMonotone(d1: real, d2: real)
    requires 0.0 < d1 <= d2
    ensures SuffixRank(FormatDifficulty(Some(d1)).value.1) <= SuffixRank(FormatDifficulty(Some(d2)).value.1)
  {
  }

  function SuffixRank(s: Suffix): nat {
    match s
    case NoSuffix => 0
    case K => 1
    case M => 2
    case G => 3
    case T => 4
  }

  // ---------------------------------------------------------------------
  // The effort gauge

  datatype GaugeColour = GaugeGreen | GaugeYellow | GaugeOrange | GaugeRed
  {
    function Hex(): string {
      match this
      case GaugeGreen => "#00ff00"
      case GaugeYellow => "#ffff00"
      case GaugeOrange => "#ff8800"
      case GaugeRed => "#ff0040"
    }
  }

  /** The gauge colour of an effort: green below 50, yellow below 100,
      orange below 150, red from there on. */
  function EffortColour(effort: real): (c: GaugeColour)
    ensures c == GaugeGreen <==> effort < 50.0
    ensures c == GaugeYellow <==> 50.0 <= effort < 100.0
    ensures c == GaugeOrange <==> 100.0 <= effort < 150.0
    ensures c == GaugeRed <==> effort >= 150.0
  {
    if effort < 50.0 then GaugeGreen
    else if effort < 100.0 then GaugeYellow
    else if effort < 150.0 then GaugeOrange
    else GaugeRed
  }

  /** The share of the arc the gauge fills: the effort, capped at 200. */
  function GaugePercentage(effort: real): (p: real)
    ensures p <= 200.0
    ensures p == effort || p == 200.0
    ensures effort <= 200.0 ==> p == effort
  {
    if effort < 200.0 then effort else 200.0
  }

  function ColourRank(c: GaugeColour): nat {
    match c
    case GaugeGreen => 0
    case GaugeYellow => 1
    case GaugeOrange => 2
    case GaugeRed => 3
  }

  /** More effort never moves the gauge to an earlier colour. */
  lemma EffortColourMonotone(e1: real, e2: real)
    requires e1 <= e2
    ensures ColourRank(EffortColour(e1)) <= ColourRank(EffortColour(e2))
  {
  }

  // ---------------------------------------------------------------------
  // Bounded histories

  const SparklineLength := 50
  const ChartMaxDataPoints := 24

  /** One push onto a buffer of at most `cap` values: append, then drop the
      oldest when the buffer grew past `cap`. */
  function Pushed<T>(buf: seq<T>, x: T, cap: nat): (r: seq<T>)
    requires |buf| <= cap && cap > 0
    ensures |r| <= cap && r != [] && r[|r| - 1] == x
    ensures |r| == if |buf| < cap then |buf| + 1 else cap
  {
    var b := buf + [x];
    if |b| > cap then b[1..] else b
  }

  /** Pushes of several values, in order. */
  function PushedAll<T>(buf: seq<T>, xs: seq<T>, cap: nat): (r: seq<T>)
    requires |buf| <= cap && cap > 0
    ensures |r| <= cap
    decreases |xs|
  {
    if xs == [] then buf
    else Pushed(PushedAll(buf, xs[..|xs| - 1], cap), xs[|xs| - 1], cap)
  }

  /** The last `n` values of `s`, or all of them when there are fewer. */
  function LastN<T>(s: seq<T>, n: nat): seq<T> {
    if |s| <= n then s else s[|s| - n..]
  }

  /** Pushing onto the last `cap` values of `s` gives the last `cap`
      values of `s` and the new one. */
  lemma LastNSnoc<T>(s: seq<T>, x: T, cap: nat)
    requires cap > 0
    ensures Pushed(LastN(s, cap), x, cap) == LastN(s + [x], cap)
  {
    var all := s + [x];
    if |s| >= cap {
      var w := s[|s| - cap..];
      assert (w + [x])[1..] == s[|s| - cap + 1..] + [x];
      assert all[|all| - cap..] == s[|s| - cap + 1..] + [x];
    }
  }

  /** A buffer always holds the last `cap` values pushed onto it. */
  lemma {:induction false} PushedAllWindow<T>(buf: seq<T>, xs: seq<T>, cap: nat)
    requires |buf| <= cap && cap > 0
    ensures PushedAll(buf, xs, cap) == LastN(buf + xs, cap)
    decreases |xs|
  {
    if xs == [] {
      assert buf + xs == buf;
    } else {
      var init := xs[..|xs| - 1];
      var x := xs[|xs| - 1];
      var w := PushedAll(buf, init, cap);
      assert PushedAll(buf, xs, cap) == Pushed(w, x, cap);
      PushedAllWindow(buf, init, cap);
      LastNSnoc(buf + init, x, cap);
      assert (buf + init) + [x] == buf + xs;
    }
  }

  /** The dashboard's histories. `chartLabels` and `chartData` are the
      chart's labels and its one dataset; `chart` says whether the chart
      exists yet, and `canvas` whether the page has the chart's canvas. */
  class DashboardState {
    var hashrates: seq<real>
    var shares: seq<real>
    var chart: bool
    var chartLabels: seq<string>
    var chartData: seq<real>
    const canvas: bool

    /** The buffers stay within their bounds, and the chart's two arrays
        move together. */
    predicate Valid()
      reads this
    {
      && |hashrates| <= SparklineLength && |shares| <= SparklineLength
      && |chartLabels| == |chartData| <= ChartMaxDataPoints
      && (!chart ==> chartLabels == [])
      && (chart ==> chartLabels != [])
    }

    constructor (canvas: bool)
      ensures Valid() && this.canvas == canvas
      ensures hashrates == [] && shares == [] && !chart && chartLabels == [] && chartData == []
    {
      hashrates := [];
      shares := [];
      chart := false;
      chartLabels := [];
      chartData := [];
      this.canvas := canvas;
    }

    /** `updateHashrateChart`: without a canvas nothing happens; the first
        call creates the chart with one point, later ones push a point and
        drop the oldest past 24. */
    method UpdateHashrateChart(stamp: string, hashrate: real)
      requires Valid()
      modifies this
      ensures Valid()
      ensures !canvas ==> chartLabels == old(chartLabels) && chartData == old(chartData) && chart == old(chart)
      ensures canvas ==> (chart
        && chartLabels == Pushed(old(chartLabels), stamp, ChartMaxDataPoints)
        && chartData == Pushed(old(chartData), hashrate, ChartMaxDataPoints))
      ensures hashrates == old(hashrates) && shares == old(shares)
    {
      if !canvas {
        return;
      }
      if !chart {
        chart := true;
        chartLabels := [stamp];
        chartData := [hashrate];
      } else {
        chartLabels := chartLabels + [stamp];
        chartData := chartData + [hashrate];
        if |chartLabels| > ChartMaxDataPoints {
          chartLabels := chartLabels[1..];
          chartData := chartData[1..];
        }
      }
    }

    /** The history part of `updatePoolStats`: an absent or zero reading
        counts as 0; both sparklines get one value, then the chart one
        point. */
    method RecordStats(poolHashrate: Option<real>, sharesPerSecond: Option<real>, stamp: string)
      requires Valid()
      modifies this
      ensures Valid()
      ensures hashrates == Pushed(old(hashrates), poolHashrate.GetOr(0.0), SparklineLength)
      ensures shares == Pushed(old(shares), sharesPerSecond.GetOr(0.0), SparklineLength)
      ensures canvas ==> (chartData == Pushed(old(chartData), poolHashrate.GetOr(0.0), ChartMaxDataPoints)
        && chartLabels == Pushed(old(chartLabels), stamp, ChartMaxDataPoints))
      ensures !canvas ==> chartData == old(chartData) && chartLabels == old(chartLabels)
    {
      var h := poolHashrate.GetOr(0.0);
      var s := sharesPerSecond.GetOr(0.0);
      hashrates := hashrates + [h];
      shares := shares + [s];
      if |hashrates| > SparklineLength {
        hashrates := hashrates[1..];
      }
      if |shares| > SparklineLength {
        shares := shares[1..];
      }
      UpdateHashrateChart(stamp, h);
    }
  }
}
