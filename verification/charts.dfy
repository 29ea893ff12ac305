/**
 * The per-URL chart builders of the URL service: the desktop/mobile split,
 * the click count per referrer source, and the row-by-row copies of the
 * browser and referrer distributions. Percentages are not modelled.
 */
module Charts {

  /** One row of the browser distribution query (null columns read as ""/false). */
  datatype BrowserRow = BrowserRow(name: string, version: string, platform: string, mobile: bool)

  /** One row of the referrer distribution query. */
  datatype ReferrerRow = ReferrerRow(source: string, clickCount: int)

  /** A labelled value of a chart (Go field `Label`; `label` is a Dafny keyword). */
  datatype TwoDimension = TwoDimension(caption: string, value: int)

  datatype BrowserStats = BrowserStats(name: string, version: string, platform: string, isMobile: bool)

  datatype Referrer = Referrer(source: string, clickCount: int)

  // ---- devicesChart --------------------------------------------------------

  /** Number of rows flagged mobile. */
  function MobileCount(data: seq<BrowserRow>): nat
  {
    if |data| == 0 then 0
    else MobileCount(data[..|data| - 1]) + (if data[|data| - 1].mobile then 1 else 0)
  }

  /** Number of rows not flagged mobile. */
  function DesktopCount(data: seq<BrowserRow>): nat
  {
    if |data| == 0 then 0
    else DesktopCount(data[..|data| - 1]) + (if data[|data| - 1].mobile then 0 else 1)
  }

  /** Every row is counted exactly once, on one side or the other. */
  lemma {:induction false} DeviceCountsSum(data: seq<BrowserRow>)
    ensures MobileCount(data) + DesktopCount(data) == |data|
    decreases |data|
  {
    if |data| > 0 {
      DeviceCountsSum(data[..|data| - 1]);
    }
  }

  /**
   * `devicesChart`: two entries, desktop first, counting the rows by their
   * mobile flag; together they count every row.
   */
  method DevicesChart(data: seq<BrowserRow>) returns (chart: seq<TwoDimension>)
    ensures |chart| == 2 && chart[0].caption == "Desktop" && chart[1].caption == "Mobile"
    ensures chart[0].value == DesktopCount(data) && chart[1].value == MobileCount(data)
    ensures chart[0].value + chart[1].value == |data|
  {
    var mobile, desktop := 0, 0;
    var i := 0;
    while i < |data|
      invariant 0 <= i <= |data|
      invariant mobile == MobileCount(data[..i])
      invariant desktop == DesktopCount(data[..i])
    {
      assert data[..i + 1][..i] == data[..i];
      if data[i].mobile {
        mobile := mobile + 1;
      } else {
        desktop := desktop + 1;
      }
      i := i + 1;
    }
    assert data[..i] == data;
    DeviceCountsSum(data);
    chart := [TwoDimension("Desktop", desktop), TwoDimension("Mobile", mobile)];
  }

  // ---- refererChart --------------------------------------------------------

  /** The distinct sources occurring in the rows. */
  function Sources(data: seq<ReferrerRow>): (s: set<string>)
    ensures forall i :: 0 <= i < |data| ==> data[i].source in s
    ensures forall k :: k in s ==> exists i :: 0 <= i < |data| && data[i].source == k
  {
    if |data| == 0 then {}
    else
      var s := Sources(data[..|data| - 1]) + {data[|data| - 1].source};
      assert forall i :: 0 <= i < |data| - 1 ==> data[i] == data[..|data| - 1][i];
      s
  }

  /** Total clicks of the rows whose source is in `keys`. */
  function ClicksWithin(data: seq<ReferrerRow>, keys: set<string>): int
  {
    if |data| == 0 then 0
    else ClicksWithin(data[..|data| - 1], keys)
         + (if data[|data| - 1].source in keys then data[|data| - 1].clickCount else 0)
  }

  /** Total clicks of the rows with the given source. */
  function ClicksFor(data: seq<ReferrerRow>, source: string): int
  {
    ClicksWithin(data, {source})
  }

  /** Total clicks over all rows. */
  function TotalClicks(data: seq<ReferrerRow>): int
  {
    if |data| == 0 then 0 else TotalClicks(data[..|data| - 1]) + data[|data| - 1].clickCount
  }

  /** Sum of the values of a chart. */
  function ChartTotal(chart: seq<TwoDimension>): int
  {
    if |chart| == 0 then 0 else ChartTotal(chart[..|chart| - 1]) + chart[|chart| - 1].value
  }

  /** The set of labels of a chart. */
  function Labels(chart: seq<TwoDimension>): (l: set<string>)
    ensures forall a :: 0 <= a < |chart| ==> chart[a].caption in l
  {
    if |chart| == 0 then {}
    else
      var init := chart[..|chart| - 1];
      assert forall a :: 0 <= a < |init| ==> init[a] == chart[a];
      Labels(init) + {chart[|chart| - 1].caption}
  }

  /**
   * What a per-source click chart is: one entry per distinct source, no
   * label twice, each entry carrying the sum of that source's clicks, in
   * any order.
   */
  ghost predicate IsRefererChart(data: seq<ReferrerRow>, chart: seq<TwoDimension>)
  {
    && Labels(chart) == Sources(data)
    && (forall i, j :: 0 <= i < j < |chart| ==> chart[i].caption != chart[j].caption)
    && (forall i :: 0 <= i < |chart| ==> chart[i].value == ClicksFor(data, chart[i].caption))
  }

  /** Splitting one key off a key set splits its clicks accordingly. */
  lemma {:induction false} ClicksWithinSplit(data: seq<ReferrerRow>, keys: set<string>, k: string)
    requires k in keys
    ensures ClicksWithin(data, keys) == ClicksWithin(data, keys - {k}) + ClicksFor(data, k)
    decreases |data|
  {
    if |data| > 0 {
      ClicksWithinSplit(data[..|data| - 1], keys, k);
    }
  }

  /** Restricting to a superset of the sources counts every click. */
  lemma {:induction false} ClicksWithinAll(data: seq<ReferrerRow>, keys: set<string>)
    requires Sources(data) <= keys
    ensures ClicksWithin(data, keys) == TotalClicks(data)
    decreases |data|
  {
    if |data| > 0 {
      var init := data[..|data| - 1];
      assert Sources(init) <= Sources(data) by {
        forall k | k in Sources(init) ensures k in Sources(data) {
          var i :| 0 <= i < |init| && init[i].source == k;
          assert data[i] == init[i];
        }
      }
      ClicksWithinAll(init, keys);
    }
  }

  /** A key set with no source in it gets no clicks. */
  lemma {:induction false} ClicksWithinNone(data: seq<ReferrerRow>)
    ensures ClicksWithin(data, {}) == 0
    decreases |data|
  {
    if |data| > 0 {
      ClicksWithinNone(data[..|data| - 1]);
    }
  }

  /** The clicks of the chart's labels add up to the chart's total. */
  lemma {:induction false} ChartTotalIsClicksWithin(data: seq<ReferrerRow>, chart: seq<TwoDimension>)
    requires forall i, j :: 0 <= i < j < |chart| ==> chart[i].caption != chart[j].caption
    requires forall i :: 0 <= i < |chart| ==> chart[i].value == ClicksFor(data, chart[i].caption)
    ensures ChartTotal(chart) == ClicksWithin(data, Labels(chart))
    decreases |chart|
  {
    if |chart| == 0 {
      assert Labels(chart) == {};
      ClicksWithinNone(data);
    } else {
      var init := chart[..|chart| - 1];
      var last := chart[|chart| - 1];
      forall a | 0 <= a < |init| ensures init[a].caption != last.caption {
        assert init[a] == chart[a];
      }
      LabelsExclude(init, last.caption);
      assert Labels(init) == Labels(chart) - {last.caption};
      ChartTotalIsClicksWithin(data, init);
      assert last.caption in Labels(chart);
      ClicksWithinSplit(data, Labels(chart), last.caption);
    }
  }

  /** `refererChart` preserves the total number of clicks. */
  lemma RefererChartTotal(data: seq<ReferrerRow>, chart: seq<TwoDimension>)
    requires IsRefererChart(data, chart)
    ensures ChartTotal(chart) == TotalClicks(data)
  {
    ChartTotalIsClicksWithin(data, chart);
    ClicksWithinAll(data, Labels(chart));
  }

  /** The first loop of `refererChart`: the clicks of each source, keyed by source. */
  method ClicksBySource(data: seq<ReferrerRow>) returns (m: map<string, int>)
    ensures m.Keys == Sources(data)
    ensures forall k :: k in m ==> m[k] == ClicksFor(data, k)
  {
    m := map[];
    var i := 0;
    while i < |data|
      invariant 0 <= i <= |data|
      invariant m.Keys == Sources(data[..i])
      invariant forall k :: k in m ==> m[k] == ClicksFor(data[..i], k)
    {
      var prefix := data[..i + 1];
      assert prefix[..i] == data[..i];
      var k := data[i].source;
      if k !in m {
        ClicksWithinOutside(data[..i], {k});
      }
      var before := if k in m then m[k] else 0;
      assert Sources(prefix) == Sources(data[..i]) + {k};
      forall k' | k' in m && k' != k
        ensures ClicksFor(prefix, k') == ClicksFor(data[..i], k')
      {
      }
      assert ClicksFor(prefix, k) == before + data[i].clickCount;
      m := m[k := before + data[i].clickCount];
      i := i + 1;
    }
    assert data[..i] == data;
  }

  /**
   * `refererChart`: accumulate the clicks per source in a map, then list the
   * map's entries. Go visits a map in no fixed order; the model picks each
   * next key arbitrarily, so only the properties of `IsRefererChart` hold.
   */
  method RefererChart(data: seq<ReferrerRow>) returns (chart: seq<TwoDimension>)
    ensures IsRefererChart(data, chart)
    ensures |chart| == |Sources(data)|
  {
    var m := ClicksBySource(data);
    chart := MapEntries(m);
  }

  /** The second loop of `refererChart`: every map entry once, in any order. */
  method MapEntries(m: map<string, int>) returns (chart: seq<TwoDimension>)
    ensures Labels(chart) == m.Keys
    ensures |chart| == |m.Keys|
    ensures forall a, b :: 0 <= a < b < |chart| ==> chart[a].caption != chart[b].caption
    ensures forall a :: 0 <= a < |chart| ==> chart[a].caption in m && chart[a].value == m[chart[a].caption]
  {
    chart := [];
    var remaining := m.Keys;
    while remaining != {}
      invariant remaining <= m.Keys
      invariant Labels(chart) == m.Keys - remaining
      invariant forall a, b :: 0 <= a < b < |chart| ==> chart[a].caption != chart[b].caption
      invariant forall a :: 0 <= a < |chart| ==> chart[a].caption in m && chart[a].value == m[chart[a].caption]
      decreases |remaining|
    {
      var k :| k in remaining;
      forall a | 0 <= a < |chart| ensures chart[a].caption != k {
        assert chart[a].caption in Labels(chart);
      }
      LabelsAppend(chart, TwoDimension(k, m[k]));
      var prev := chart;
      chart := chart + [TwoDimension(k, m[k])];
      forall a, b | 0 <= a < b < |chart| ensures chart[a].caption != chart[b].caption {
        assert chart[a] == prev[a];
        if b < |prev| { assert chart[b] == prev[b]; }
      }
      remaining := remaining - {k};
    }
    LabelsDistinctCard(chart);
  }

  /** A chart with distinct labels has as many labels as entries. */
  lemma {:induction false} LabelsDistinctCard(chart: seq<TwoDimension>)
    requires forall a, b :: 0 <= a < b < |chart| ==> chart[a].caption != chart[b].caption
    ensures |Labels(chart)| == |chart|
    decreases |chart|
  {
    if |chart| > 0 {
      var init := chart[..|chart| - 1];
      var last := chart[|chart| - 1];
      LabelsDistinctCard(init);
      assert chart == init + [last];
      LabelsAppend(init, last);
      forall a | 0 <= a < |init| ensures init[a].caption != last.caption {
        assert init[a] == chart[a];
      }
      LabelsExclude(init, last.caption);
    }
  }

  /** A label no entry carries is not among the labels. */
  lemma {:induction false} LabelsExclude(chart: seq<TwoDimension>, l: string)
    requires forall a :: 0 <= a < |chart| ==> chart[a].caption != l
    ensures l !in Labels(chart)
    decreases |chart|
  {
    if |chart| > 0 {
      var init := chart[..|chart| - 1];
      forall a | 0 <= a < |init| ensures init[a].caption != l {
        assert init[a] == chart[a];
      }
      LabelsExclude(init, l);
    }
  }

  /** Appending an entry adds its label. */
  lemma LabelsAppend(chart: seq<TwoDimension>, x: TwoDimension)
    ensures Labels(chart + [x]) == Labels(chart) + {x.caption}
  {
    assert (chart + [x])[..|chart|] == chart;
  }

  /** No row has a source in `keys`: no clicks are counted for `keys`. */
  lemma {:induction false} ClicksWithinOutside(data: seq<ReferrerRow>, keys: set<string>)
    requires Sources(data) !! keys
    ensures ClicksWithin(data, keys) == 0
    decreases |data|
  {
    if |data| > 0 {
      var init := data[..|data| - 1];
      assert Sources(init) <= Sources(data) by {
        forall k | k in Sources(init) ensures k in Sources(data) {
          var j :| 0 <= j < |init| && init[j].source == k;
          assert data[j] == init[j];
        }
      }
      ClicksWithinOutside(init, keys);
    }
  }

  // ---- browsers / referers -------------------------------------------------

  /** `browsers`: one entry per row, in row order, copying the row's fields. */
  function Browsers(data: seq<BrowserRow>): (s: seq<BrowserStats>)
    ensures |s| == |data|
    ensures forall i :: 0 <= i < |data| ==>
      s[i] == BrowserStats(data[i].name, data[i].version, data[i].platform, data[i].mobile)
  {
    if |data| == 0 then []
    else
      var r := data[0];
      [BrowserStats(r.name, r.version, r.platform, r.mobile)] + Browsers(data[1..])
  }

  /** `referers`: one entry per row, in row order, copying source and clicks. */
  function Referers(data: seq<ReferrerRow>): (s: seq<Referrer>)
    ensures |s| == |data|
    ensures forall i :: 0 <= i < |data| ==> s[i] == Referrer(data[i].source, data[i].clickCount)
  {
    if |data| == 0 then []
    else [Referrer(data[0].source, data[0].clickCount)] + Referers(data[1..])
  }

  /** Mapping rows one by one commutes with concatenating row batches. */
  lemma ReferersAppend(a: seq<ReferrerRow>, b: seq<ReferrerRow>)
    ensures Referers(a + b) == Referers(a) + Referers(b)
  {
    assert |Referers(a + b)| == |Referers(a) + Referers(b)|;
    forall i | 0 <= i < |a + b| ensures Referers(a + b)[i] == (Referers(a) + Referers(b))[i] {
      if i < |a| { assert (a + b)[i] == a[i]; } else { assert (a + b)[i] == b[i - |a|]; }
    }
  }

  /** A referrer's clicks in the copied list add up to the chart total for it. */
  lemma {:induction false} ReferersTotal(data: seq<ReferrerRow>)
    ensures ReferrersClicks(Referers(data)) == TotalClicks(data)
    decreases |data|
  {
    if |data| > 0 {
      var init := data[..|data| - 1];
      ReferersTotal(init);
      assert data == init + [data[|data| - 1]];
      ReferersAppend(init, [data[|data| - 1]]);
      assert Referers(data)[..|data| - 1] == Referers(init);
    }
  }

  /** Sum of the click counts of a referrer list. */
  function ReferrersClicks(s: seq<Referrer>): int
  {
    if |s| == 0 then 0 else ReferrersClicks(s[..|s| - 1]) + s[|s| - 1].clickCount
  }
}
