/**
  The sidebar's relative-time label (`formatTimestamp`): the millisecond
  difference between now and a session's last update is floored into seconds,
  minutes, hours and days, and the coarsest positive unit is shown in Indonesian.
  For a positive divisor Dafny's `/` is floor division, like `Math.floor(a / b)`,
  negative dividends included.
 */
module RelativeTime {
  import Text

  const MsPerSecond := 1000
  const MsPerMinute := 60_000
  const MsPerHour := 3_600_000
  const MsPerDay := 86_400_000

  /** Which label the sidebar shows. */
  datatype Ago = JustNow | MinutesAgo(minutes: nat) | HoursAgo(hours: nat) | DaysAgo(days: nat) {

    /** The rendered label: it starts with a digit exactly when it shows a count. */
    function Label(): (l: string)
      ensures |l| > 0
      ensures ('0' <= l[0] <= '9') <==> !JustNow?
    {
      match this
      case JustNow => "Baru saja"
      case MinutesAgo(n) => Text.NatToString(n) + " menit yang lalu"
      case HoursAgo(n) => Text.NatToString(n) + " jam yang lalu"
      case DaysAgo(n) => Text.NatToString(n) + " hari yang lalu"
    }

    /** The number a counted label shows; zero for `JustNow`. */
    function Count(): nat {
      match this
      case JustNow => 0
      case MinutesAgo(n) => n
      case HoursAgo(n) => n
      case DaysAgo(n) => n
    }

    /** Coarseness of the label, for comparing two labels. */
    function Rank(): nat {
      match this
      case JustNow => 0
      case MinutesAgo(_) => 1
      case HoursAgo(_) => 2
      case DaysAgo(_) => 3
    }
  }

  /** A positive multiple of `m` is at least `m`. */
  lemma MulAtLeast(k: int, m: int)
    requires k >= 1 && m > 0
    ensures k * m >= m
  {
    assert k * m == (k - 1) * m + m;
  }

  /** Euclidean division by a positive divisor is unique. */
  lemma DivUnique(x: int, m: int, q: int, r: int)
    requires m > 0 && 0 <= r < m && x == q * m + r
    ensures x / m == q
  {
    var q', r' := x / m, x % m;
    assert x == q' * m + r' && 0 <= r' < m;
    var k := q - q';
    assert k * m == q * m - q' * m;
    assert k * m == r' - r;
    if k >= 1 {
      MulAtLeast(k, m);
    } else if k <= -1 {
      MulAtLeast(-k, m);
    }
  }

  /** Flooring twice is flooring once by the product of the divisors. */
  lemma NestedFloor(d: int, a: int, b: int)
    requires a > 0 && b > 0
    ensures (d / a) / b == d / (a * b)
  {
    var ab := a * b;
    assert ab > 0;
    var q, r := d / ab, d % ab;
    assert d == q * ab + r && 0 <= r < ab;
    var r1, r2 := r / a, r % a;
    assert r == r1 * a + r2 && 0 <= r2 < a;
    assert r1 < b;
    assert 0 <= r1;
    assert q * ab == (q * b) * a;
    assert (q * b + r1) * a == (q * b) * a + r1 * a;
    assert d == (q * b + r1) * a + r2;
    DivUnique(d, a, q * b + r1, r2);
    assert d / a == q * b + r1;
    DivUnique(d / a, b, q, r1);
  }

  /** The sidebar's floors reduce to one division by the length of a minute, hour or day. */
  lemma UnitFloors(diff: int)
    ensures (diff / MsPerSecond) / 60 == diff / MsPerMinute
    ensures ((diff / MsPerSecond) / 60) / 60 == diff / MsPerHour
    ensures (((diff / MsPerSecond) / 60) / 60) / 24 == diff / MsPerDay
  {
    NestedFloor(diff, MsPerSecond, 60);
    NestedFloor(diff, MsPerMinute, 60);
    NestedFloor(diff, MsPerHour, 24);
  }

  /** `formatTimestamp` for a difference of `diff` milliseconds (now minus the session's time). */
  function FormatTimestamp(diff: int): (r: Ago)
    ensures r.JustNow? <==> diff < MsPerMinute
    ensures r.MinutesAgo? <==> MsPerMinute <= diff < MsPerHour
    ensures r.HoursAgo? <==> MsPerHour <= diff < MsPerDay
    ensures r.DaysAgo? <==> MsPerDay <= diff
    ensures r.MinutesAgo? ==> r.minutes == diff / MsPerMinute && 1 <= r.minutes < 60
    ensures r.HoursAgo? ==> r.hours == diff / MsPerHour && 1 <= r.hours < 24
    ensures r.DaysAgo? ==> r.days == diff / MsPerDay && r.days >= 1
  {
    UnitFloors(diff);
    var seconds := diff / MsPerSecond;
    var minutes := seconds / 60;
    var hours := minutes / 60;
    var days := hours / 24;
    if days > 0 then DaysAgo(days)
    else if hours > 0 then HoursAgo(hours)
    else if minutes > 0 then MinutesAgo(minutes)
    else JustNow
  }

  /** An older timestamp never gets a finer label than a newer one. */
  lemma FormatTimestampMonotonic(d1: int, d2: int)
    requires d1 <= d2
    ensures FormatTimestamp(d1).Rank() <= FormatTimestamp(d2).Rank()
    ensures FormatTimestamp(d1).Rank() == FormatTimestamp(d2).Rank() ==>
              match FormatTimestamp(d1)
              case JustNow => true
              case MinutesAgo(m) => m <= FormatTimestamp(d2).minutes
              case HoursAgo(h) => h <= FormatTimestamp(d2).hours
              case DaysAgo(n) => n <= FormatTimestamp(d2).days
  {
    var r1, r2 := FormatTimestamp(d1), FormatTimestamp(d2);
    if r1.Rank() == r2.Rank() {
      if r1.MinutesAgo? {
        DivMonotonic(d1, d2, MsPerMinute);
      } else if r1.HoursAgo? {
        DivMonotonic(d1, d2, MsPerHour);
      } else if r1.DaysAgo? {
        DivMonotonic(d1, d2, MsPerDay);
      }
    }
  }

  lemma DivMonotonic(x: int, y: int, m: int)
    requires x <= y && m > 0
    ensures x / m <= y / m
  {
    var qx, qy := x / m, y / m;
    if qx > qy {
      MulAtLeast(qx - qy, m);
    }
  }

  /** The label tells the unit and the count: different labels come from different values. */
  lemma LabelInjective(a: Ago, b: Ago)
    requires a.Label() == b.Label()
    ensures a == b
  {
    if !a.JustNow? && !b.JustNow? {
      var (x, s) := CountAndUnit(a);
      var (y, t) := CountAndUnit(b);
      Text.DigitsThenRest(x, s, y, t);
      Text.NatToStringInjective(a.Count(), b.Count());
    }
  }

  /** The two parts of a counted label: the decimal count and the unit text after it. */
  function CountAndUnit(a: Ago): (p: (string, string))
    requires !a.JustNow?
    ensures p.0 + p.1 == a.Label() && p.0 == Text.NatToString(a.Count())
    ensures Text.IsDigits(p.0) && |p.1| > 0 && p.1[0] == ' '
    ensures p.1 == " menit yang lalu" <==> a.MinutesAgo?
    ensures p.1 == " jam yang lalu" <==> a.HoursAgo?
    ensures p.1 == " hari yang lalu" <==> a.DaysAgo?
  {
    match a
    case MinutesAgo(n) => (Text.NatToString(n), " menit yang lalu")
    case HoursAgo(n) => (Text.NatToString(n), " jam yang lalu")
    case DaysAgo(n) => (Text.NatToString(n), " hari yang lalu")
  }
}
