/**
 * The specification of `get_matching_stock_prices` (asset.py lines 314-376):
 * for each period after the first, the high, low and average price over the
 * daily rows since the previous period, and the market caps they imply.
 */
module Prices {
  import opened Outcomes
  import opened Cells
  import opened Tables

  /** One day of the price history, its date an ordinal like the periods. */
  datatype PriceRow = PriceRow(date: int, high: real, low: real, close: real)

  /** The balance-sheet row that holds the share count. */
  const SharesOutstanding: string := "commonStockSharesOutstanding"

  ghost predicate SortedByDate(prices: seq<PriceRow>) {
    forall i, j :: 0 <= i < j < |prices| ==> prices[i].date <= prices[j].date
  }

  /**
   * `price_data.loc[from:to]`: the rows dated from `from` to `to`, both ends
   * included, in their order.
   */
  function Window(prices: seq<PriceRow>, from: int, to: int): (w: seq<PriceRow>)
  {
    if prices == [] then []
    else
      var rest := Window(prices[1..], from, to);
      if from <= prices[0].date <= to then [prices[0]] + rest else rest
  }

  /** The window holds exactly the rows dated from `from` to `to`. */
  lemma {:induction false} WindowMembers(prices: seq<PriceRow>, from: int, to: int)
    ensures forall r :: r in Window(prices, from, to) <==> r in prices && from <= r.date <= to
  {
    if prices != [] {
      WindowMembers(prices[1..], from, to);
      assert forall r :: r in prices <==> r == prices[0] || r in prices[1..];
    }
  }

  /** With no row dated inside the range, the window is empty. */
  lemma {:induction false} WindowEmpty(prices: seq<PriceRow>, from: int, to: int)
    requires forall k :: 0 <= k < |prices| ==> prices[k].date < from || to < prices[k].date
    ensures Window(prices, from, to) == []
  {
    if prices != [] {
      WindowEmpty(prices[1..], from, to);
    }
  }

  /** How many rows are dated before `d`. */
  function CountBefore(prices: seq<PriceRow>, d: int): (n: nat)
    ensures n <= |prices|
  {
    if prices == [] then 0
    else (if prices[0].date < d then 1 else 0) + CountBefore(prices[1..], d)
  }

  /**
   * On a date-sorted history the window is one contiguous slice, the one a
   * label slice of a sorted DatetimeIndex selects: from the first row dated
   * `from` or later up to the last row dated `to` or earlier.
   */
  lemma {:induction false} WindowIsSlice(prices: seq<PriceRow>, from: int, to: int)
    requires SortedByDate(prices) && from <= to
    ensures CountBefore(prices, from) <= CountBefore(prices, to + 1)
    ensures Window(prices, from, to) == prices[CountBefore(prices, from)..CountBefore(prices, to + 1)]
  {
    if prices != [] {
      var rest := prices[1..];
      SortedTail(prices);
      WindowIsSlice(rest, from, to);
      var lo, hi := CountBefore(rest, from), CountBefore(rest, to + 1);
      var first := prices[0];
      assert Window(prices, from, to) ==
        if from <= first.date <= to then [first] + Window(rest, from, to) else Window(rest, from, to);
      if first.date < from {
        assert CountBefore(prices, from) == lo + 1 && CountBefore(prices, to + 1) == hi + 1;
        SliceOfTail(prices, lo, hi);
      } else {
        NoneBefore(rest, first.date, from);
        if first.date <= to {
          assert CountBefore(prices, to + 1) == hi + 1;
          HeadAndTail(prices, hi);
        } else {
          NoneBefore(rest, first.date, to + 1);
        }
      }
    }
  }

  /** The tail of a sorted history is sorted and dated no earlier than its head. */
  lemma SortedTail(prices: seq<PriceRow>)
    requires SortedByDate(prices) && prices != []
    ensures SortedByDate(prices[1..])
    ensures forall k :: 0 <= k < |prices[1..]| ==> prices[0].date <= prices[1..][k].date
  {
  }

  /** A slice of the tail is the slice of the whole one position further on. */
  lemma SliceOfTail(prices: seq<PriceRow>, lo: nat, hi: nat)
    requires lo <= hi < |prices|
    ensures prices[lo + 1..hi + 1] == prices[1..][lo..hi]
  {
    assert forall i :: 0 <= i < hi - lo ==> prices[lo + 1..hi + 1][i] == prices[1..][lo..hi][i];
  }

  /** A prefix is the head followed by a prefix of the tail. */
  lemma HeadAndTail(prices: seq<PriceRow>, hi: nat)
    requires hi < |prices|
    ensures prices[..hi + 1] == [prices[0]] + prices[1..][..hi]
  {
    assert forall i :: 0 <= i <= hi ==> prices[..hi + 1][i] == ([prices[0]] + prices[1..][..hi])[i];
  }

  /** In a history dated `d` or later, no row is dated before any day up to `d`. */
  lemma {:induction false} NoneBefore(prices: seq<PriceRow>, d: int, e: int)
    requires SortedByDate(prices) && e <= d
    requires forall k :: 0 <= k < |prices| ==> d <= prices[k].date
    ensures CountBefore(prices, e) == 0
  {
    if prices != [] {
      NoneBefore(prices[1..], d, e);
    }
  }

  /** `["High"].max()` of a non-empty window. */
  function MaxHigh(w: seq<PriceRow>): (m: real)
    requires w != []
    ensures forall k :: 0 <= k < |w| ==> w[k].high <= m
    ensures exists k :: 0 <= k < |w| && w[k].high == m
  {
    if |w| == 1 then w[0].high
    else
      var rest := MaxHigh(w[1..]);
      var k :| 0 <= k < |w[1..]| && w[1..][k].high == rest;
      assert w[k + 1].high == rest;
      if w[0].high >= rest then w[0].high else rest
  }

  /** `["Low"].min()` of a non-empty window. */
  function MinLow(w: seq<PriceRow>): (m: real)
    requires w != []
    ensures forall k :: 0 <= k < |w| ==> m <= w[k].low
    ensures exists k :: 0 <= k < |w| && w[k].low == m
  {
    if |w| == 1 then w[0].low
    else
      var rest := MinLow(w[1..]);
      var k :| 0 <= k < |w[1..]| && w[1..][k].low == rest;
      assert w[k + 1].low == rest;
      if w[0].low <= rest then w[0].low else rest
  }

  function SumClose(w: seq<PriceRow>): real {
    if w == [] then 0.0 else w[0].close + SumClose(w[1..])
  }

  /** A sum of closes lies between the count times any lower and any upper bound. */
  lemma {:induction false} SumCloseBounds(w: seq<PriceRow>, lo: real, hi: real)
    requires forall k :: 0 <= k < |w| ==> lo <= w[k].close <= hi
    ensures |w| as real * lo <= SumClose(w) <= |w| as real * hi
  {
    if w != [] {
      SumCloseBounds(w[1..], lo, hi);
    }
  }

  /** The high of a window as pandas gives it: NaN for an empty window. */
  function SliceHigh(w: seq<PriceRow>): (c: Cell)
    ensures c.Missing? <==> w == []
    ensures c.Num? ==> (forall r :: r in w ==> r.high <= c.v) && (exists r :: r in w && r.high == c.v)
  {
    if w == [] then Missing else Num(MaxHigh(w))
  }

  /** The low of a window: NaN for an empty window. */
  function SliceLow(w: seq<PriceRow>): (c: Cell)
    ensures c.Missing? <==> w == []
    ensures c.Num? ==> (forall r :: r in w ==> c.v <= r.low) && (exists r :: r in w && r.low == c.v)
  {
    if w == [] then Missing else Num(MinLow(w))
  }

  /** The mean close of a window: NaN for an empty window. */
  function SliceAverage(w: seq<PriceRow>): (c: Cell)
    ensures c.Missing? <==> w == []
    ensures c.Num? ==> c.v * |w| as real == SumClose(w)
  {
    if w == [] then Missing else Num(SumClose(w) / |w| as real)
  }

  /** A quotient by a positive count of a value between count times lo and count times hi. */
  lemma DivideBounds(x: real, n: real, lo: real, hi: real)
    requires n > 0.0 && n * lo <= x <= n * hi
    ensures lo <= x / n <= hi
  {
    assert (n * lo) / n == lo;
    assert (n * hi) / n == hi;
  }

  /** The mean close lies between the lowest and the highest close of the window. */
  lemma AverageWithinCloses(w: seq<PriceRow>, lo: real, hi: real)
    requires w != []
    requires forall k :: 0 <= k < |w| ==> lo <= w[k].close <= hi
    ensures lo <= SliceAverage(w).v <= hi
  {
    SumCloseBounds(w, lo, hi);
    var n := |w| as real;
    DivideBounds(SumClose(w), n, lo, hi);
  }

  /**
   * `float(self.balance_sheet.loc[common_shares_col, i])`: the share count for
   * a period, or None where the lookup raises KeyError (no such row or column).
   */
  function SharesAt(bs: Table, p: int): (r: Option<Cell>)
    ensures r.Some? <==> SharesOutstanding in bs.rows && p in bs.rows[SharesOutstanding]
    ensures r.Some? ==> r.value == bs.rows[SharesOutstanding][p]
  {
    if SharesOutstanding in bs.rows && p in bs.rows[SharesOutstanding]
    then Some(bs.rows[SharesOutstanding][p])
    else None
  }

  /** A market-cap statistic: shares times the price statistic, 0 when the lookup failed. */
  function CapOf(shares: Option<Cell>, stat: Cell): (c: Cell)
    ensures shares.None? ==> c == Num(0.0)
    ensures shares.Some? && shares.value.Num? && stat.Num? ==> c == Num(shares.value.v * stat.v)
    ensures shares.Some? && stat.Missing? ==> c.Missing?
  {
    match shares
    case None => Num(0.0)
    case Some(s) => Mul(s, stat)
  }

  /** The six dicts the aligner returns, each keyed by period. */
  datatype PriceData = PriceData(
    priceHigh: map<int, Cell>, priceLow: map<int, Cell>, priceAverage: map<int, Cell>,
    capHigh: map<int, Cell>, capLow: map<int, Cell>, capAverage: map<int, Cell>)

  /** What the six dicts hold for one period, None where a dict has no entry. */
  datatype Entry = Entry(
    high: Option<Cell>, low: Option<Cell>, average: Option<Cell>,
    capHigh: Option<Cell>, capLow: Option<Cell>, capAverage: Option<Cell>)

  const NoEntry: Entry := Entry(None, None, None, None, None, None)

  function Lookup(m: map<int, Cell>, p: int): (r: Option<Cell>)
    ensures r.Some? <==> p in m
    ensures r.Some? ==> r.value == m[p]
  {
    if p in m then Some(m[p]) else None
  }

  /** The six dicts read at one period. */
  function EntryOf(d: PriceData, p: int): Entry {
    Entry(Lookup(d.priceHigh, p), Lookup(d.priceLow, p), Lookup(d.priceAverage, p),
          Lookup(d.capHigh, p), Lookup(d.capLow, p), Lookup(d.capAverage, p))
  }

  /** `m[p] = c` when there is a value to store. */
  function Put(m: map<int, Cell>, p: int, c: Option<Cell>): map<int, Cell> {
    if c.Some? then m[p := c.value] else m
  }

  /** Stores an entry's values at period p, each in its own dict. */
  function Record(d: PriceData, p: int, e: Entry): PriceData {
    PriceData(Put(d.priceHigh, p, e.high), Put(d.priceLow, p, e.low), Put(d.priceAverage, p, e.average),
              Put(d.capHigh, p, e.capHigh), Put(d.capLow, p, e.capLow), Put(d.capAverage, p, e.capAverage))
  }

  /** The window label k > 0 is priced over: from the label before it to itself. */
  function PeriodWindow(columns: seq<int>, k: nat, prices: seq<PriceRow>): seq<PriceRow>
    requires 0 < k < |columns|
  {
    Window(prices, columns[k - 1], columns[k])
  }

  /**
   * What the aligner's loop stores for label k (lines 327-365): price 0 and
   * no market cap for the first label; for a later one the high, low and
   * mean of its window and, for each, the market cap it implies.
   */
  function Expected(columns: seq<int>, k: nat, prices: seq<PriceRow>, bs: Table): Entry
    requires k < |columns|
  {
    if k == 0 then Entry(Some(Num(0.0)), Some(Num(0.0)), Some(Num(0.0)), None, None, None)
    else
      var w := PeriodWindow(columns, k, prices);
      var shares := SharesAt(bs, columns[k]);
      Entry(Some(SliceHigh(w)), Some(SliceLow(w)), Some(SliceAverage(w)),
            Some(CapOf(shares, SliceHigh(w))), Some(CapOf(shares, SliceLow(w))),
            Some(CapOf(shares, SliceAverage(w))))
  }

  /** The dicts after storing `entries[k]` at `labels[k]` for each k in turn, starting empty. */
  function Recorded(labels: seq<int>, entries: seq<Entry>): PriceData
    requires |labels| == |entries|
  {
    if labels == [] then PriceData(map[], map[], map[], map[], map[], map[])
    else
      var n := |labels| - 1;
      Record(Recorded(labels[..n], entries[..n]), labels[n], entries[n])
  }

  /** The entry the loop stores for each label, in order. */
  function Entries(columns: seq<int>, prices: seq<PriceRow>, bs: Table): (es: seq<Entry>)
    ensures |es| == |columns|
    ensures forall k :: 0 <= k < |columns| ==> es[k] == Expected(columns, k, prices, bs)
  {
    seq(|columns|, k requires 0 <= k < |columns| => Expected(columns, k, prices, bs))
  }

  /** What `get_matching_stock_prices(columns)` returns. */
  function AlignedPrices(columns: seq<int>, prices: seq<PriceRow>, bs: Table): PriceData {
    Recorded(columns, Entries(columns, prices, bs))
  }

  /** Storing at period q leaves every other period as it was. */
  lemma RecordElsewhere(d: PriceData, q: int, e: Entry, p: int)
    requires p != q
    ensures EntryOf(Record(d, q, e), p) == EntryOf(d, p)
  {
  }

  /** Storing at a period that had no entry leaves exactly the stored entry there. */
  lemma RecordFresh(d: PriceData, p: int, e: Entry)
    requires EntryOf(d, p) == NoEntry
    ensures EntryOf(Record(d, p, e), p) == e
  {
  }

  /** A period that is none of the labels has no entry. */
  lemma {:induction false} RecordedUnseen(labels: seq<int>, entries: seq<Entry>, p: int)
    requires |labels| == |entries| && p !in labels
    ensures EntryOf(Recorded(labels, entries), p) == NoEntry
  {
    if labels != [] {
      var n := |labels| - 1;
      assert p !in labels[..n] && p != labels[n];
      RecordedUnseen(labels[..n], entries[..n], p);
      RecordElsewhere(Recorded(labels[..n], entries[..n]), labels[n], entries[n], p);
    }
  }

  /** With distinct labels, every label keeps the entry stored for it. */
  lemma {:induction false} RecordedAt(labels: seq<int>, entries: seq<Entry>, k: nat)
    requires |labels| == |entries| && Distinct(labels) && k < |labels|
    ensures EntryOf(Recorded(labels, entries), labels[k]) == entries[k]
  {
    var n := |labels| - 1;
    var d := Recorded(labels[..n], entries[..n]);
    if k < n {
      RecordedAt(labels[..n], entries[..n], k);
      RecordElsewhere(d, labels[n], entries[n], labels[k]);
    } else {
      assert labels[n] !in labels[..n];
      RecordedUnseen(labels[..n], entries[..n], labels[n]);
      RecordFresh(d, labels[n], entries[n]);
    }
  }

  /**
   * The aligner's result for every label: the first gets price 0 and no
   * market-cap entry, each later one the window statistics since the label
   * before it and the market caps they imply.
   */
  lemma AlignedPricesAt(columns: seq<int>, prices: seq<PriceRow>, bs: Table, k: nat)
    requires Distinct(columns) && k < |columns|
    ensures EntryOf(AlignedPrices(columns, prices, bs), columns[k]) == Expected(columns, k, prices, bs)
  {
    RecordedAt(columns, Entries(columns, prices, bs), k);
  }

  /** The dicts hold nothing for a period that is not a label. */
  lemma AlignedPricesElsewhere(columns: seq<int>, prices: seq<PriceRow>, bs: Table, p: int)
    requires p !in columns
    ensures EntryOf(AlignedPrices(columns, prices, bs), p) == NoEntry
  {
    RecordedUnseen(columns, Entries(columns, prices, bs), p);
  }

  /** A period with no price rows gets NaN statistics and does not fail. */
  lemma EmptyWindow(columns: seq<int>, prices: seq<PriceRow>, bs: Table, k: nat)
    requires Distinct(columns) && 0 < k < |columns|
    requires forall i :: 0 <= i < |prices| ==> prices[i].date < columns[k - 1] || columns[k] < prices[i].date
    ensures var e := EntryOf(AlignedPrices(columns, prices, bs), columns[k]);
      && e.high == Some(Missing) && e.low == Some(Missing) && e.average == Some(Missing)
      && (SharesAt(bs, columns[k]).Some? ==> e.capHigh == Some(Missing))
      && (SharesAt(bs, columns[k]).None? ==> e.capHigh == Some(Num(0.0)))
  {
    AlignedPricesAt(columns, prices, bs, k);
    WindowEmpty(prices, columns[k - 1], columns[k]);
  }
}
