/**
 * The "time ago" label both notification lists show next to each entry: the elapsed
 * milliseconds are floored to whole minutes, hours and days, and the first unit whose
 * count stays under the next unit's size is used.
 */
module TimeAgo {
  import Strings

  const MINUTE_MS: int := 60000
  const HOUR_MS: int := 3600000
  const DAY_MS: int := 86400000

  /** The chosen unit and the floored count in that unit. */
  datatype Elapsed = Minutes(n: int) | Hours(n: int) | Days(n: int)

  /**
   * `Math.floor(diff / unit)` for the three units, then the `minutes < 60` and `hours < 24`
   * tests. A timestamp in the future gives a negative minute count.
   */
  function Bucket(diff: int): (e: Elapsed)
    ensures e.Minutes? <==> diff < HOUR_MS
    ensures e.Hours? <==> HOUR_MS <= diff < DAY_MS
    ensures e.Days? <==> DAY_MS <= diff
    ensures e.Minutes? ==> e.n < 60 && MINUTE_MS * e.n <= diff < MINUTE_MS * (e.n + 1)
    ensures e.Hours? ==> 1 <= e.n < 24 && HOUR_MS * e.n <= diff < HOUR_MS * (e.n + 1)
    ensures e.Days? ==> 1 <= e.n && DAY_MS * e.n <= diff < DAY_MS * (e.n + 1)
  {
    var minutes := diff / MINUTE_MS;
    var hours := diff / HOUR_MS;
    var days := diff / DAY_MS;
    if minutes < 60 then Minutes(minutes) else if hours < 24 then Hours(hours) else Days(days)
  }

  function Suffix(e: Elapsed): string {
    match e
    case Minutes(_) => "m ago"
    case Hours(_) => "h ago"
    case Days(_) => "d ago"
  }

  /**
   * `getTimeAgo(timestamp)` at the instant `now`: the count in decimal followed by the
   * unit's suffix, so that reading the digits back gives the floored count.
   */
  function GetTimeAgo(now: int, timestamp: int): (r: string)
    ensures var e := Bucket(now - timestamp);
            var k := |r| - 5;
            k >= 1 && r[k..] == Suffix(e) &&
            (e.n >= 0 ==> Strings.IsDecimal(r[..k]) && Strings.ParseDecimal(r[..k]) == e.n) &&
            (e.n < 0 ==> r[0] == '-' && Strings.IsDecimal(r[1..k]) && Strings.ParseDecimal(r[1..k]) == -e.n)
  {
    var e := Bucket(now - timestamp);
    var digits := Strings.IntToString(e.n);
    assert (digits + Suffix(e))[..|digits|] == digits;
    assert (digits + Suffix(e))[1..|digits|] == digits[1..];
    digits + Suffix(e)
  }

  /** Two hours ago reads "2h ago", and ten days ago "10d ago". */
  lemma SeedLabels(now: int)
    ensures GetTimeAgo(now, now - 2 * HOUR_MS) == "2h ago"
    ensures GetTimeAgo(now, now - 10 * DAY_MS) == "10d ago"
  {
    assert Bucket(2 * HOUR_MS) == Hours(2);
    assert Bucket(10 * DAY_MS) == Days(10);
    assert Strings.IntToString(2) == "2";
    assert Strings.IntToString(10) == "10";
  }
}
