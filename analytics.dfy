/**
 * The analytics page: campaigns counted by type and by status for the charts, the status
 * labels capitalised, campaign names shortened for the budget chart, and the pie colours.
 */
module Analytics {
  import opened Wrappers
  import opened Schema
  import Strings
  import Lists

  /** Each distinct key once, in the order of its first occurrence. */
  function Firsts(keys: seq<string>): (r: seq<string>)
    ensures forall k :: k in r <==> k in keys
    ensures forall a, b :: 0 <= a < b < |r| ==> r[a] != r[b]
  {
    if keys == [] then []
    else
      var prefix := Firsts(keys[..|keys| - 1]);
      var last := keys[|keys| - 1];
      assert keys == keys[..|keys| - 1] + [last];
      if last in keys[..|keys| - 1] then prefix else prefix + [last]
  }

  /** The position of the first occurrence of `k`. */
  function FirstIndex(keys: seq<string>, k: string): (i: nat)
    requires k in keys
    ensures i < |keys| && keys[i] == k
    ensures forall j :: 0 <= j < i ==> keys[j] != k
  {
    if keys[0] == k then 0 else 1 + FirstIndex(keys[1..], k)
  }

  /** Dropping the last key leaves the first occurrence of every key still present where it was. */
  lemma FirstIndexPrefix(keys: seq<string>, k: string)
    requires keys != [] && k in keys[..|keys| - 1]
    ensures FirstIndex(keys, k) == FirstIndex(keys[..|keys| - 1], k)
  {
    var i, j := FirstIndex(keys, k), FirstIndex(keys[..|keys| - 1], k);
    assert keys[j] == k && i <= j;
  }

  /** A key met for the first time at the end comes after every key met before it. */
  lemma AppendLastOrder(keys: seq<string>, prefix: seq<string>)
    requires keys != []
    requires keys[|keys| - 1] !in keys[..|keys| - 1]
    requires forall a :: 0 <= a < |prefix| ==> prefix[a] in keys[..|keys| - 1]
    requires forall a, b :: 0 <= a < b < |prefix| ==>
      FirstIndex(keys[..|keys| - 1], prefix[a]) < FirstIndex(keys[..|keys| - 1], prefix[b])
    ensures var r := prefix + [keys[|keys| - 1]];
      forall a, b :: 0 <= a < b < |r| ==> r[a] in keys && r[b] in keys && FirstIndex(keys, r[a]) < FirstIndex(keys, r[b])
  {
    var n := |keys|;
    var pre := keys[..n - 1];
    var last := keys[n - 1];
    var r := prefix + [last];
    forall a | 0 <= a < |prefix|
      ensures FirstIndex(keys, prefix[a]) == FirstIndex(pre, prefix[a]) < n - 1
    {
      FirstIndexPrefix(keys, prefix[a]);
    }
    assert keys == pre + [last];
    forall a, b | 0 <= a < b < |r| ensures r[a] in keys && r[b] in keys && FirstIndex(keys, r[a]) < FirstIndex(keys, r[b]) {
      assert r[a] == prefix[a];
      if b < |prefix| {
        assert r[b] == prefix[b];
      }
    }
  }

  /** `Firsts` lists the keys in the order of their first occurrence. */
  lemma {:induction false} FirstsOrder(keys: seq<string>)
    ensures forall a, b :: 0 <= a < b < |Firsts(keys)| ==>
      FirstIndex(keys, Firsts(keys)[a]) < FirstIndex(keys, Firsts(keys)[b])
  {
    if keys != [] {
      var pre := keys[..|keys| - 1];
      FirstsOrder(pre);
      var prefix := Firsts(pre);
      assert forall a :: 0 <= a < |prefix| ==> prefix[a] in pre by {
        forall a | 0 <= a < |prefix| ensures prefix[a] in pre {
          assert prefix[a] in prefix;
        }
      }
      if keys[|keys| - 1] in pre {
        forall a | 0 <= a < |prefix| ensures FirstIndex(keys, prefix[a]) == FirstIndex(pre, prefix[a]) {
          FirstIndexPrefix(keys, prefix[a]);
        }
      } else {
        AppendLastOrder(keys, prefix);
      }
    }
  }

  function Lookup(acc: map<string, nat>, k: string): nat {
    if k in acc then acc[k] else 0
  }

  /** The `[key, count]` pairs of the accumulator, in the order of `order`. */
  function Entries(order: seq<string>, acc: map<string, nat>): (r: seq<(string, nat)>)
    ensures |r| == |order|
    ensures forall j :: 0 <= j < |order| ==> r[j] == (order[j], Lookup(acc, order[j]))
  {
    if order == [] then [] else [(order[0], Lookup(acc, order[0]))] + Entries(order[1..], acc)
  }

  function Sum(entries: seq<(string, nat)>): nat {
    if entries == [] then 0 else entries[0].1 + Sum(entries[1..])
  }

  /** Changing the count of a key that is not listed does not change the total. */
  lemma {:induction false} SumFrame(order: seq<string>, acc: map<string, nat>, k: string, v: nat)
    requires k !in order
    ensures Sum(Entries(order, acc[k := v])) == Sum(Entries(order, acc))
  {
    if order != [] {
      SumFrame(order[1..], acc, k, v);
    }
  }

  /** Adding one to the count of a key listed once adds one to the total. */
  lemma {:induction false} SumBump(order: seq<string>, acc: map<string, nat>, k: string)
    requires forall a, b :: 0 <= a < b < |order| ==> order[a] != order[b]
    requires k in order && k in acc
    ensures Sum(Entries(order, acc[k := acc[k] + 1])) == Sum(Entries(order, acc)) + 1
  {
    if order[0] == k {
      assert k !in order[1..] by {
        forall j | 0 <= j < |order[1..]| ensures order[1..][j] != k {
          assert order[1..][j] == order[j + 1];
        }
      }
      SumFrame(order[1..], acc, k, acc[k] + 1);
    } else {
      SumBump(order[1..], acc, k);
    }
  }

  lemma {:induction false} SumAppend(order: seq<string>, acc: map<string, nat>, k: string)
    requires k in acc
    ensures Sum(Entries(order + [k], acc)) == Sum(Entries(order, acc)) + acc[k]
  {
    if order == [] {
      assert Entries([k], acc) == [(k, Lookup(acc, k))];
    } else {
      assert (order + [k])[1..] == order[1..] + [k];
      SumAppend(order[1..], acc, k);
    }
  }

  /** One step of the `reduce` on a key already counted. */
  lemma SeenStep(prefix: seq<string>, k: string, order: seq<string>, acc: map<string, nat>)
    requires order == Firsts(prefix)
    requires forall x :: x in acc <==> x in order
    requires forall x :: x in acc ==> acc[x] == multiset(prefix)[x]
    requires Sum(Entries(order, acc)) == |prefix|
    requires k in acc
    ensures Firsts(prefix + [k]) == order
    ensures forall x :: x in acc[k := acc[k] + 1] <==> x in order
    ensures forall x :: x in acc[k := acc[k] + 1] ==> acc[k := acc[k] + 1][x] == multiset(prefix + [k])[x]
    ensures Sum(Entries(order, acc[k := acc[k] + 1])) == |prefix + [k]|
  {
    var next := prefix + [k];
    assert next[..|next| - 1] == prefix;
    assert k in order && k in prefix;
    assert Firsts(next) == order;
    var bumped := acc[k := acc[k] + 1];
    forall x | x in bumped ensures bumped[x] == multiset(next)[x] {
      assert multiset(next) == multiset(prefix) + multiset{k};
    }
    SumBump(order, acc, k);
  }

  /** One step of the `reduce` on a key seen for the first time. */
  lemma NewStep(prefix: seq<string>, k: string, order: seq<string>, acc: map<string, nat>)
    requires order == Firsts(prefix)
    requires forall x :: x in acc <==> x in order
    requires forall x :: x in acc ==> acc[x] == multiset(prefix)[x]
    requires Sum(Entries(order, acc)) == |prefix|
    requires k !in acc
    ensures Firsts(prefix + [k]) == order + [k]
    ensures forall x :: x in acc[k := 1] <==> x in order + [k]
    ensures forall x :: x in acc[k := 1] ==> acc[k := 1][x] == multiset(prefix + [k])[x]
    ensures Sum(Entries(order + [k], acc[k := 1])) == |prefix + [k]|
  {
    var next := prefix + [k];
    assert next[..|next| - 1] == prefix;
    assert multiset(next) == multiset(prefix) + multiset{k};
    SumFrame(order, acc, k, 1);
    SumAppend(order, acc[k := 1], k);
  }

  /** The accumulator and its key order after the `reduce` has consumed `keys`. */
  function Tally(keys: seq<string>): (map<string, nat>, seq<string>) {
    if keys == [] then (map[], [])
    else
      var prev := Tally(keys[..|keys| - 1]);
      var k := keys[|keys| - 1];
      if k in prev.0 then (prev.0[k := prev.0[k] + 1], prev.1) else (prev.0[k := 1], prev.1 + [k])
  }

  /** The tally lists the first occurrences with their counts, and the counts add up. */
  lemma {:induction false} TallyCorrect(keys: seq<string>)
    ensures Tally(keys).1 == Firsts(keys)
    ensures forall x :: x in Tally(keys).0 <==> x in Tally(keys).1
    ensures forall x :: x in Tally(keys).0 ==> Tally(keys).0[x] == multiset(keys)[x]
    ensures Sum(Entries(Tally(keys).1, Tally(keys).0)) == |keys|
  {
    if keys != [] {
      var prefix := keys[..|keys| - 1];
      var k := keys[|keys| - 1];
      assert keys == prefix + [k];
      TallyCorrect(prefix);
      var (acc, order) := Tally(prefix);
      if k in acc {
        SeenStep(prefix, k, order, acc);
      } else {
        NewStep(prefix, k, order, acc);
      }
    }
  }

  /**
   * The `reduce` that counts keys into an object, `acc[key] = (acc[key] || 0) + 1`, followed by
   * `Object.entries`: every key that occurs is listed once, in the order it was first added,
   * with the number of its occurrences, and the counts add up to the number of keys.
   */
  method CountBy(keys: seq<string>) returns (entries: seq<(string, nat)>)
    ensures |entries| == |Firsts(keys)|
    ensures forall j :: 0 <= j < |entries| ==> entries[j].0 == Firsts(keys)[j]
    ensures forall j :: 0 <= j < |entries| ==> entries[j].1 == multiset(keys)[entries[j].0]
    ensures Sum(entries) == |keys|
  {
    var acc: map<string, nat> := map[];
    var order: seq<string> := [];
    for i := 0 to |keys|
      invariant (acc, order) == Tally(keys[..i])
    {
      var k := keys[i];
      assert keys[..i + 1][..i] == keys[..i];
      if k in acc {
        acc := acc[k := acc[k] + 1];
      } else {
        acc := acc[k := 1];
        order := order + [k];
      }
    }
    assert keys[..|keys|] == keys;
    TallyCorrect(keys);
    entries := Entries(order, acc);
  }

  function Kinds(cs: seq<Campaign>): (r: seq<string>)
    ensures |r| == |cs| && forall i :: 0 <= i < |cs| ==> r[i] == cs[i].kind
  {
    seq(|cs|, i requires 0 <= i < |cs| => cs[i].kind)
  }

  function Statuses(cs: seq<Campaign>): (r: seq<string>)
    ensures |r| == |cs| && forall i :: 0 <= i < |cs| ==> r[i] == cs[i].status
  {
    seq(|cs|, i requires 0 <= i < |cs| => cs[i].status)
  }

  /** `campaignsByType` then `typeChartData`, over `campaigns || []`. */
  method CampaignsByType(campaigns: Option<seq<Campaign>>) returns (data: seq<(string, nat)>)
    ensures forall t :: (exists i :: 0 <= i < |campaigns.GetOr([])| && campaigns.GetOr([])[i].kind == t) <==>
                        t in Firsts(Kinds(campaigns.GetOr([])))
    ensures |data| == |Firsts(Kinds(campaigns.GetOr([])))|
    ensures forall j :: 0 <= j < |data| ==>
              data[j].0 == Firsts(Kinds(campaigns.GetOr([])))[j] &&
              data[j].1 == multiset(Kinds(campaigns.GetOr([])))[data[j].0]
    ensures Sum(data) == |campaigns.GetOr([])|
  {
    var cs := campaigns.GetOr([]);
    data := CountBy(Kinds(cs));
    forall t ensures (exists i :: 0 <= i < |cs| && cs[i].kind == t) <==> t in Kinds(cs) {
      if t in Kinds(cs) {
        var i :| 0 <= i < |cs| && Kinds(cs)[i] == t;
      }
    }
  }

  /** `status.charAt(0).toUpperCase() + status.slice(1)`. */
  function Capitalize(s: string): (r: string)
    ensures |r| == |s|
    ensures |s| > 0 ==> r[0] == Strings.UpperChar(s[0]) && r[1..] == s[1..]
  {
    if s == [] then "" else [Strings.UpperChar(s[0])] + s[1..]
  }

  /** Capitalising twice is capitalising once, and it never changes the lower-cased text. */
  lemma CapitalizeProperties(s: string)
    ensures Capitalize(Capitalize(s)) == Capitalize(s)
    ensures Strings.ToLower(Capitalize(s)) == Strings.ToLower(s)
  {
  }

  /** `campaignsByStatus` then `statusChartData`: the same tally, labelled with capitalised statuses. */
  method CampaignsByStatus(campaigns: Option<seq<Campaign>>) returns (data: seq<(string, nat)>)
    ensures |data| == |Firsts(Statuses(campaigns.GetOr([])))|
    ensures forall j :: 0 <= j < |data| ==>
              var status := Firsts(Statuses(campaigns.GetOr([])))[j];
              data[j] == (Capitalize(status), multiset(Statuses(campaigns.GetOr([])))[status])
    ensures Sum(data) == |campaigns.GetOr([])|
  {
    var counts := CountBy(Statuses(campaigns.GetOr([])));
    data := [];
    for j := 0 to |counts|
      invariant |data| == j
      invariant forall m :: 0 <= m < j ==> data[m] == (Capitalize(counts[m].0), counts[m].1)
      invariant Sum(data) + Sum(counts[j..]) == Sum(counts)
    {
      assert counts[j..][1..] == counts[j + 1..];
      SumSnoc(data, (Capitalize(counts[j].0), counts[j].1));
      data := data + [(Capitalize(counts[j].0), counts[j].1)];
    }
  }

  lemma {:induction false} SumSnoc(entries: seq<(string, nat)>, e: (string, nat))
    ensures Sum(entries + [e]) == Sum(entries) + e.1
  {
    if entries == [] {
      assert [] + [e] == [e];
    } else {
      assert (entries + [e])[1..] == entries[1..] + [e];
      SumSnoc(entries[1..], e);
    }
  }

  const NAME_LIMIT: int := 15
  const ELLIPSIS: string := "..."

  /** `name.slice(0, 15) + (name.length > 15 ? '...' : '')`. */
  function TruncateName(name: string): (r: string)
    ensures |name| <= NAME_LIMIT ==> r == name
    ensures |name| > NAME_LIMIT ==> |r| == NAME_LIMIT + 3 && r[..NAME_LIMIT] == name[..NAME_LIMIT] && r[NAME_LIMIT..] == ELLIPSIS
    ensures |r| <= NAME_LIMIT + 3
  {
    Lists.Slice(name, 0, NAME_LIMIT) + (if |name| > NAME_LIMIT then ELLIPSIS else "")
  }

  /** A bar of the budget chart; the parsed float budget is not modelled. */
  datatype TrendPoint = TrendPoint(name: string, progress: int)

  /** `budgetTrendData.slice(0, 5)`: the first five campaigns with shortened names. */
  function BudgetChartData(campaigns: Option<seq<Campaign>>): (r: seq<TrendPoint>)
    ensures |r| == Lists.Min(5, |campaigns.GetOr([])|)
    ensures forall i :: 0 <= i < |r| ==>
              r[i] == TrendPoint(TruncateName(campaigns.GetOr([])[i].name), campaigns.GetOr([])[i].progress)
  {
    var cs := campaigns.GetOr([]);
    var trend := seq(|cs|, i requires 0 <= i < |cs| => TrendPoint(TruncateName(cs[i].name), cs[i].progress));
    Lists.SliceWindow(trend, 0, 5);
    Lists.Slice(trend, 0, 5)
  }

  const COLORS: seq<string> := ["#3B82F6", "#10B981", "#F59E0B", "#EF4444", "#8B5CF6"]

  /** `COLORS[index % COLORS.length]`: a palette colour, repeating every five slices. */
  function PieColor(index: nat): (c: string)
    ensures c in COLORS
    ensures index < |COLORS| ==> c == COLORS[index]
  {
    COLORS[index % |COLORS|]
  }

  lemma PieColorCycles(index: nat)
    ensures PieColor(index + |COLORS|) == PieColor(index)
  {
    assert (index + 5) % 5 == index % 5;
  }
}
