/**
 * The wallet page's market data: the timeframe → day-count choice, the
 * normalisation of a historical price series (millisecond timestamps to
 * seconds, one sample per second keeping the first, ascending by time), and
 * the page state that a fetch replaces or, on failure, leaves alone.
 *
 * Prices are opaque (`V`): only the integer times are computed with.
 */
module Wallet {
  import opened Wrappers

  /** One `[timestamp, price]` pair of the price API's `prices` array (milliseconds). */
  datatype PricePoint<V> = PricePoint(timestamp: int, price: V)

  /** One chart sample: `time` in whole seconds. */
  datatype Sample<V> = Sample(time: int, value: V)

  /** A row of the market listing; only the fields the page keeps. */
  datatype Coin<V> = Coin(id: string, symbol: string, name: string, currentPrice: V,
                          change24h: V, totalVolume: V, marketCap: V, image: string)

  /** The historical-series request: the coin in the URL path and the `days` query parameter. */
  datatype ChartRequest = ChartRequest(coin: string, days: nat)

  // ---------------------------------------------------------------------------
  // Timeframe
  // ---------------------------------------------------------------------------

  /** The day count requested for a timeframe label; any other label asks for a year. */
  function Days(timeframe: string): (d: nat)
    ensures d == 1 <==> timeframe == "24h"
    ensures d == 7 <==> timeframe == "7d"
    ensures d == 30 <==> timeframe == "30d"
    ensures d == 365 <==> timeframe !in {"24h", "7d", "30d"}
  {
    if timeframe == "24h" then 1
    else if timeframe == "7d" then 7
    else if timeframe == "30d" then 30
    else 365
  }

  /** The four buttons of the page ask for 1, 7, 30 and 365 days. */
  lemma ButtonDays()
    ensures Days("24h") == 1 && Days("7d") == 7 && Days("30d") == 30 && Days("1y") == 365
  {
  }

  // ---------------------------------------------------------------------------
  // Series normalisation
  // ---------------------------------------------------------------------------

  /** `{ time: Math.floor(timestamp / 1000), value: price }`. */
  function ToSample<V>(p: PricePoint<V>): (s: Sample<V>)
    ensures s.time * 1000 <= p.timestamp < s.time * 1000 + 1000
    ensures s.value == p.price
  {
    Sample(p.timestamp / 1000, p.price)
  }

  function ToSamples<V>(ps: seq<PricePoint<V>>): (r: seq<Sample<V>>)
    ensures |r| == |ps|
    ensures forall i :: 0 <= i < |ps| ==> r[i] == ToSample(ps[i])
  {
    seq(|ps|, i requires 0 <= i < |ps| => ToSample(ps[i]))
  }

  /** `s.findIndex(t => t.time === time)`: the first position holding `time`, or -1. */
  function FindIndex<V>(s: seq<Sample<V>>, time: int): (k: int)
    ensures -1 <= k < |s|
  {
    if s == [] then -1
    else if s[0].time == time then 0
    else
      var k := FindIndex(s[1..], time);
      if k == -1 then -1 else k + 1
  }

  /** `findIndex` gives -1 exactly when the time is absent, and otherwise its first position. */
  lemma {:induction false} FindIndexSpec<V>(s: seq<Sample<V>>, time: int)
    ensures var k := FindIndex(s, time);
      && (k == -1 <==> forall i :: 0 <= i < |s| ==> s[i].time != time)
      && (k >= 0 ==> s[k].time == time && forall i :: 0 <= i < k ==> s[i].time != time)
  {
    if s != [] && s[0].time != time {
      FindIndexSpec(s[1..], time);
      var k := FindIndex(s[1..], time);
      forall i | 0 < i < |s| ensures s[i].time == s[1..][i - 1].time {}
    }
  }

  /** The filter step from position `k` on: keep `s[i]` iff `i` is where its time first occurs. */
  function KeepFirstFrom<V>(s: seq<Sample<V>>, k: nat): seq<Sample<V>>
    requires k <= |s|
    decreases |s| - k
  {
    if k == |s| then []
    else (if FindIndex(s, s[k].time) == k then [s[k]] else []) + KeepFirstFrom(s, k + 1)
  }

  /** `.filter((item, index, self) => index === self.findIndex(t => t.time === item.time))`. */
  function DedupByTime<V>(s: seq<Sample<V>>): seq<Sample<V>> {
    KeepFirstFrom(s, 0)
  }

  predicate DistinctTimes<V>(s: seq<Sample<V>>) {
    forall i, j :: 0 <= i < j < |s| ==> s[i].time != s[j].time
  }

  predicate StrictlySorted<V>(s: seq<Sample<V>>) {
    forall i, j :: 0 <= i < j < |s| ==> s[i].time < s[j].time
  }

  /** `x` is the sample at the first position of `s` that holds its time. */
  ghost predicate IsFirstOccurrence<V>(s: seq<Sample<V>>, x: Sample<V>) {
    0 <= FindIndex(s, x.time) && s[FindIndex(s, x.time)] == x
  }

  lemma {:induction false} KeepFirstFromLength<V>(s: seq<Sample<V>>, k: nat)
    requires k <= |s|
    ensures |KeepFirstFrom(s, k)| <= |s| - k
    decreases |s| - k
  {
    if k < |s| {
      KeepFirstFromLength(s, k + 1);
    }
  }

  /** Every sample the filter keeps from `k` on is the first occurrence of its time, found at or after `k`. */
  lemma {:induction false} KeepFirstFromKeepsFirsts<V>(s: seq<Sample<V>>, k: nat)
    requires k <= |s|
    ensures forall x :: x in KeepFirstFrom(s, k) ==> IsFirstOccurrence(s, x) && k <= FindIndex(s, x.time)
    decreases |s| - k
  {
    if k < |s| {
      KeepFirstFromKeepsFirsts(s, k + 1);
      var rest := KeepFirstFrom(s, k + 1);
      var head := if FindIndex(s, s[k].time) == k then [s[k]] else [];
      assert KeepFirstFrom(s, k) == head + rest;
      forall x | x in head + rest ensures IsFirstOccurrence(s, x) && k <= FindIndex(s, x.time) {
        if x !in rest { assert x in head; }
      }
    }
  }

  /** No two samples the filter keeps share a time. */
  lemma {:induction false} KeepFirstFromDistinct<V>(s: seq<Sample<V>>, k: nat)
    requires k <= |s|
    ensures DistinctTimes(KeepFirstFrom(s, k))
    decreases |s| - k
  {
    if k < |s| {
      KeepFirstFromDistinct(s, k + 1);
      KeepFirstFromKeepsFirsts(s, k + 1);
      var rest := KeepFirstFrom(s, k + 1);
      if FindIndex(s, s[k].time) == k {
        var r := [s[k]] + rest;
        assert KeepFirstFrom(s, k) == r;
        forall j | 0 < j < |r| ensures r[0].time != r[j].time {
          assert r[j] == rest[j - 1] && rest[j - 1] in rest;
        }
        forall i, j | 0 <= i < j < |r| ensures r[i].time != r[j].time {
          if i > 0 { assert r[i] == rest[i - 1] && r[j] == rest[j - 1]; }
        }
      } else {
        assert KeepFirstFrom(s, k) == rest;
      }
    }
  }

  /** Every first occurrence at or after `k` is kept. */
  lemma {:induction false} KeepFirstFromComplete<V>(s: seq<Sample<V>>, k: nat, j: int)
    requires k <= j < |s| && FindIndex(s, s[j].time) == j
    ensures s[j] in KeepFirstFrom(s, k)
    decreases |s| - k
  {
    var rest := KeepFirstFrom(s, k + 1);
    if j == k {
      assert KeepFirstFrom(s, k) == [s[k]] + rest;
    } else {
      KeepFirstFromComplete(s, k + 1, j);
      var head := if FindIndex(s, s[k].time) == k then [s[k]] else [];
      assert KeepFirstFrom(s, k) == head + rest;
    }
  }

  /** Places `x` before the first sample whose time is not below its own. */
  function InsertByTime<V>(x: Sample<V>, s: seq<Sample<V>>): seq<Sample<V>> {
    if s == [] then [x]
    else if x.time <= s[0].time then [x] + s
    else [s[0]] + InsertByTime(x, s[1..])
  }

  /** `.sort((a, b) => a.time - b.time)`, written as an insertion sort. */
  function SortByTime<V>(s: seq<Sample<V>>): seq<Sample<V>> {
    if s == [] then [] else InsertByTime(s[0], SortByTime(s[1..]))
  }

  lemma {:induction false} InsertByTimeMultiset<V>(x: Sample<V>, s: seq<Sample<V>>)
    ensures multiset(InsertByTime(x, s)) == multiset(s) + multiset{x}
  {
    if s != [] && x.time > s[0].time {
      InsertByTimeMultiset(x, s[1..]);
      assert s == [s[0]] + s[1..];
    }
  }

  lemma ConsStrictlySorted<V>(h: Sample<V>, t: seq<Sample<V>>)
    requires StrictlySorted(t)
    requires forall y :: y in t ==> h.time < y.time
    ensures StrictlySorted([h] + t)
  {
    var r := [h] + t;
    forall i, j | 0 <= i < j < |r| ensures r[i].time < r[j].time {
      assert r[j] == t[j - 1] && t[j - 1] in t;
      if i > 0 { assert r[i] == t[i - 1]; }
    }
  }

  lemma {:induction false} InsertByTimeSorted<V>(x: Sample<V>, s: seq<Sample<V>>)
    requires StrictlySorted(s)
    requires forall y :: y in s ==> y.time != x.time
    ensures StrictlySorted(InsertByTime(x, s))
  {
    if s == [] {
    } else if x.time <= s[0].time {
      forall y | y in s ensures x.time < y.time {
        var i :| 0 <= i < |s| && s[i] == y;
        assert i == 0 || s[0].time < s[i].time;
      }
      ConsStrictlySorted(x, s);
    } else {
      var t := InsertByTime(x, s[1..]);
      InsertByTimeSorted(x, s[1..]);
      InsertByTimeMultiset(x, s[1..]);
      forall y | y in t ensures s[0].time < y.time {
        assert y in multiset(t);
        if y != x {
          assert y in s[1..];
          var i :| 0 <= i < |s[1..]| && s[1..][i] == y;
          assert s[i + 1] == y;
        }
      }
      ConsStrictlySorted(s[0], t);
    }
  }

  /** Sorting a sample list with distinct times yields a strictly ascending permutation of it. */
  lemma {:induction false} SortByTimeSpec<V>(s: seq<Sample<V>>)
    requires DistinctTimes(s)
    ensures multiset(SortByTime(s)) == multiset(s)
    ensures StrictlySorted(SortByTime(s))
  {
    if s != [] {
      var tail := s[1..];
      assert DistinctTimes(tail);
      SortByTimeSpec(tail);
      var st := SortByTime(tail);
      forall y | y in st ensures y.time != s[0].time {
        assert y in multiset(tail);
        var j :| 0 <= j < |tail| && tail[j] == y;
        assert tail[j] == s[j + 1];
      }
      InsertByTimeMultiset(s[0], st);
      InsertByTimeSorted(s[0], st);
      assert s == [s[0]] + tail;
    }
  }

  /**
   * A strictly ascending arrangement of a collection is unique: whatever sort
   * routine the runtime uses, the series it produces is the one modelled here.
   */
  lemma {:induction false} StrictlySortedUnique<V>(a: seq<Sample<V>>, b: seq<Sample<V>>)
    requires StrictlySorted(a) && StrictlySorted(b)
    requires multiset(a) == multiset(b)
    ensures a == b
  {
    assert |a| == |multiset(a)| == |multiset(b)| == |b|;
    if a != [] {
      SameLeast(a, b);
      MultisetTail(a);
      MultisetTail(b);
      StrictlySortedUnique(a[1..], b[1..]);
    }
  }

  /** Two strictly ascending arrangements of one collection start with the same sample. */
  lemma SameLeast<V>(a: seq<Sample<V>>, b: seq<Sample<V>>)
    requires StrictlySorted(a) && StrictlySorted(b) && a != [] && b != []
    requires multiset(a) == multiset(b)
    ensures a[0] == b[0]
  {
    assert a[0] in multiset(b) && b[0] in multiset(a);
    var k :| 0 <= k < |b| && b[k] == a[0];
    var m :| 0 <= m < |a| && a[m] == b[0];
    SortedHeadIsLeast(a, m);
    SortedHeadIsLeast(b, k);
  }

  lemma MultisetTail<V>(a: seq<Sample<V>>)
    requires a != []
    ensures multiset(a[1..]) == multiset(a) - multiset{a[0]}
  {
    assert a == [a[0]] + a[1..];
  }

  lemma SortedHeadIsLeast<V>(s: seq<Sample<V>>, i: int)
    requires StrictlySorted(s) && 0 <= i < |s|
    ensures s[0].time <= s[i].time
    ensures i > 0 ==> s[0].time < s[i].time
  {
  }

  /** The series handed to the chart: map to seconds, keep first per second, sort ascending. */
  function NormaliseSeries<V>(ps: seq<PricePoint<V>>): seq<Sample<V>> {
    SortByTime(DedupByTime(ToSamples(ps)))
  }

  /** The position of the first price point whose second is `time`, if any. */
  predicate IsFirstAt<V>(ps: seq<PricePoint<V>>, k: int, time: int) {
    && 0 <= k < |ps|
    && ps[k].timestamp / 1000 == time
    && forall m :: 0 <= m < k ==> ps[m].timestamp / 1000 != time
  }

  /** Sorting the filtered samples rearranges them into strictly ascending order. */
  lemma NormaliseSeriesSorted<V>(ps: seq<PricePoint<V>>)
    ensures var d := DedupByTime(ToSamples(ps));
      && StrictlySorted(NormaliseSeries(ps))
      && |NormaliseSeries(ps)| == |d| <= |ps|
      && multiset(NormaliseSeries(ps)) == multiset(d)
  {
    var s := ToSamples(ps);
    var d := DedupByTime(s);
    KeepFirstFromDistinct(s, 0);
    KeepFirstFromLength(s, 0);
    SortByTimeSpec(d);
    var r := SortByTime(d);
    assert |r| == |multiset(r)| == |multiset(d)| == |d|;
  }

  /** Every second that occurs in the input has a sample in the normalised series. */
  lemma NoTimeLost<V>(ps: seq<PricePoint<V>>, j: int)
    requires 0 <= j < |ps|
    ensures var r := NormaliseSeries(ps);
      exists i :: 0 <= i < |r| && r[i].time == ps[j].timestamp / 1000
  {
    var s := ToSamples(ps);
    var r := NormaliseSeries(ps);
    NormaliseSeriesSorted(ps);
    FindIndexSpec(s, s[j].time);
    var f := FindIndex(s, s[j].time);
    assert s[f].time == s[j].time;
    KeepFirstFromComplete(s, 0, f);
    assert s[f] in multiset(r);
    var i :| 0 <= i < |r| && r[i] == s[f];
  }

  /** Each sample of the normalised series carries the price of the first input point in its second. */
  lemma FirstValueWins<V>(ps: seq<PricePoint<V>>, i: int)
    requires 0 <= i < |NormaliseSeries(ps)|
    ensures var r := NormaliseSeries(ps);
      exists k :: IsFirstAt(ps, k, r[i].time) && r[i].value == ps[k].price
  {
    var s := ToSamples(ps);
    var r := NormaliseSeries(ps);
    NormaliseSeriesSorted(ps);
    KeepFirstFromKeepsFirsts(s, 0);
    assert r[i] in multiset(DedupByTime(s));
    var k := FindIndex(s, r[i].time);
    FindIndexSpec(s, r[i].time);
    assert s[k] == r[i];
    forall m | 0 <= m < k ensures ps[m].timestamp / 1000 != r[i].time {
      assert s[m] == ToSample(ps[m]);
    }
    assert IsFirstAt(ps, k, r[i].time);
  }

  /**
   * The normalised series is strictly ascending in time (so its times are
   * distinct), is no longer than the input, holds a sample for every second
   * that occurs in the input, and each of its samples carries the price of the
   * first input point that falls in that second.
   */
  lemma NormaliseSeriesSpec<V>(ps: seq<PricePoint<V>>)
    ensures var r := NormaliseSeries(ps);
      && StrictlySorted(r)
      && |r| <= |ps|
      && (forall j :: 0 <= j < |ps| ==> exists i :: 0 <= i < |r| && r[i].time == ps[j].timestamp / 1000)
      && (forall i :: 0 <= i < |r| ==>
            exists k :: IsFirstAt(ps, k, r[i].time) && r[i].value == ps[k].price)
  {
    NormaliseSeriesSorted(ps);
    forall j | 0 <= j < |ps| {
      NoTimeLost(ps, j);
    }
    forall i | 0 <= i < |NormaliseSeries(ps)| {
      FirstValueWins(ps, i);
    }
  }

  /** Any strictly ascending rearrangement of the filtered samples is the normalised series. */
  lemma NormaliseSeriesCharacterised<V>(ps: seq<PricePoint<V>>, r: seq<Sample<V>>)
    requires StrictlySorted(r)
    requires multiset(r) == multiset(DedupByTime(ToSamples(ps)))
    ensures r == NormaliseSeries(ps)
  {
    var d := DedupByTime(ToSamples(ps));
    KeepFirstFromDistinct(ToSamples(ps), 0);
    SortByTimeSpec(d);
    StrictlySortedUnique(r, SortByTime(d));
  }

  // ---------------------------------------------------------------------------
  // Page state
  // ---------------------------------------------------------------------------

  /** The state the wallet page keeps between renders (chart objects are not modelled). */
  class WalletPage<V> {
    var cryptoData: seq<Coin<V>>
    var selectedCrypto: string
    var chartData: seq<Sample<V>>
    var timeframe: string
    var loading: bool

    constructor ()
      ensures cryptoData == [] && selectedCrypto == "bitcoin" && chartData == []
      ensures timeframe == "24h" && loading
    {
      cryptoData := [];
      selectedCrypto := "bitcoin";
      chartData := [];
      timeframe := "24h";
      loading := true;
    }

    /**
     * The market-listing refresh. `response` is a decoded listing, or None when
     * the request or its decoding threw. A decoded listing replaces the old
     * one, a throw keeps it, and loading ends either way. A JSON body that is
     * not a listing cannot be given here (see README).
     */
    method FetchCryptoData(response: Option<seq<Coin<V>>>)
      modifies this`cryptoData, this`loading
      ensures cryptoData == if response.Some? then response.value else old(cryptoData)
      ensures !loading
    {
      if response.Some? {
        cryptoData := response.value;
      }
      loading := false;
    }

    /**
     * The historical-series fetch for the current coin and timeframe. Returns
     * the request it makes. `response` is the `prices` array of the answer to
     * that request, or None when the request, the decoding or the field access
     * threw.
     */
    method FetchChartData(response: Option<seq<PricePoint<V>>>) returns (request: ChartRequest)
      modifies this`chartData
      ensures request == ChartRequest(selectedCrypto, Days(timeframe))
      ensures chartData == if response.Some? then NormaliseSeries(response.value) else old(chartData)
    {
      request := ChartRequest(selectedCrypto, Days(timeframe));
      if response.Some? {
        var processed := NormaliseSeries(response.value);
        chartData := processed;
      }
    }

    /**
     * A timeframe button. The effect on `[selectedCrypto, timeframe]` runs only
     * when the timeframe actually changes, and fetches only for a selected coin.
     */
    method SelectTimeframe(tf: string, response: Option<seq<PricePoint<V>>>) returns (request: Option<ChartRequest>)
      modifies this`timeframe, this`chartData
      ensures timeframe == tf
      ensures request == if tf != old(timeframe) && selectedCrypto != "" then Some(ChartRequest(selectedCrypto, Days(tf)))
                         else None
      ensures chartData == if request.Some? && response.Some? then NormaliseSeries(response.value)
                           else old(chartData)
    {
      var changed := tf != timeframe;
      timeframe := tf;
      request := None;
      if changed && selectedCrypto != "" {
        var r := FetchChartData(response);
        request := Some(r);
      }
    }

    /** A row of the market table: selects the coin and, if it is a different one, fetches its series. */
    method SelectCrypto(id: string, response: Option<seq<PricePoint<V>>>) returns (request: Option<ChartRequest>)
      modifies this`selectedCrypto, this`chartData
      ensures selectedCrypto == id
      ensures request == if id != old(selectedCrypto) && id != "" then Some(ChartRequest(id, Days(timeframe)))
                         else None
      ensures chartData == if request.Some? && response.Some? then NormaliseSeries(response.value)
                           else old(chartData)
    {
      var changed := id != selectedCrypto;
      selectedCrypto := id;
      request := None;
      if changed && id != "" {
        var r := FetchChartData(response);
        request := Some(r);
      }
    }
  }
}
