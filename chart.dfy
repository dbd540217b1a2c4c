/** The live price chart of the reports view (`generateGraph`, `updateGraph`
    and `resetGraph` in assets/js/app.js): the chart's label array and one
    dataset per selected coin, the tick that appends one batch of prices, and
    the two module-level handles a reset clears. Drawing is not modelled. */
module Chart {
  import opened Base
  import Text

  /** The label array is trimmed from the front once it is longer than this. */
  const MaxLabels: nat := 20

  /** One point of a dataset: `{ x: currentTime, y: price }`. */
  datatype Point = Point(x: string, y: real)

  /** An entry of the price-multi response, `{ USD: price }`, whose field may be missing. */
  datatype Quote = Quote(usd: Option<real>)

  /** The decoded price-multi response keyed by upper-case ticker; `None` is a
      falsy body. */
  type Response = Option<map<string, Quote>>

  /** One timer firing: the time label `toLocaleTimeString` gives and the response. */
  datatype Sample = Sample(time: string, response: Response)

  /** `data.labels` and the `data` array of each dataset, in the order of the coins. */
  datatype ChartState = ChartState(labels: seq<string>, datasets: seq<seq<Point>>)

  /** The chart data `generateGraph` builds: no labels and an empty dataset per coin. */
  function Fresh(coins: seq<Symbol>): (st: ChartState)
    ensures st.labels == [] && |st.datasets| == |coins|
    ensures forall j :: 0 <= j < |coins| ==> st.datasets[j] == []
  {
    ChartState([], seq(|coins|, _ => []))
  }

  /** The price plotted for `coin`: the response's `USD` field under the
      upper-case ticker, or 0 when the entry or the field is missing. */
  function PriceOf(graphData: map<string, Quote>, coin: Symbol): real {
    var cap := Text.Upper(coin);
    if cap in graphData && graphData[cap].usd.Some? then graphData[cap].usd.value else 0.0
  }

  /** `Array.prototype.shift` on the array's contents: drop the first element, if any. */
  function Shift<T>(s: seq<T>): seq<T> {
    if s == [] then [] else s[1..]
  }

  /** The `forEach` body for the coin at `index`: push a label and a point, then
      shift both the labels and this coin's dataset when there are more than
      `MaxLabels` labels. */
  function Plot(st: ChartState, index: nat, time: string, y: real): ChartState
    requires index < |st.datasets|
  {
    var labels := st.labels + [time];
    var data := st.datasets[index] + [Point(time, y)];
    if |labels| > MaxLabels then ChartState(Shift(labels), st.datasets[index := Shift(data)])
    else ChartState(labels, st.datasets[index := data])
  }

  /** The chart after the `forEach` has handled the first `k` coins. */
  function PlotFirst(st: ChartState, coins: seq<Symbol>, graphData: map<string, Quote>, time: string, k: nat): (r: ChartState)
    requires k <= |coins| == |st.datasets|
    ensures |r.datasets| == |st.datasets|
  {
    if k == 0 then st
    else Plot(PlotFirst(st, coins, graphData, time, k - 1), k - 1, time, PriceOf(graphData, coins[k - 1]))
  }

  /** One `updateGraph` tick: a falsy or empty response leaves the chart alone;
      otherwise every coin is plotted in order. */
  function Tick(st: ChartState, coins: seq<Symbol>, response: Response, time: string): (r: ChartState)
    requires |coins| == |st.datasets|
    ensures |r.datasets| == |st.datasets|
  {
    if response.None? || |response.value| == 0 then st
    else PlotFirst(st, coins, response.value, time, |coins|)
  }

  /** The chart after a series of ticks, oldest first. */
  function Run(st: ChartState, coins: seq<Symbol>, samples: seq<Sample>): (r: ChartState)
    requires |coins| == |st.datasets|
    ensures |r.datasets| == |coins|
  {
    if samples == [] then st
    else
      var last := samples[|samples| - 1];
      Tick(Run(st, coins, samples[..|samples| - 1]), coins, last.response, last.time)
  }

  /** `n` copies of `x`. */
  function Repeat<T>(x: T, n: nat): (r: seq<T>)
    ensures |r| == n && forall i :: 0 <= i < n ==> r[i] == x
  {
    seq(n, _ => x)
  }

  /** The last `MaxLabels` entries of `s`, or all of them if there are fewer. */
  function Window<T>(s: seq<T>): (r: seq<T>)
    ensures |r| == if |s| <= MaxLabels then |s| else MaxLabels
  {
    if |s| <= MaxLabels then s else s[|s| - MaxLabels..]
  }

  function Min(a: int, b: int): int {
    if a <= b then a else b
  }

  /** How many points the dataset at `index` keeps for good when `count` coins
      share the label array: its coin's label lands at position `index`,
      `index + count`, `index + 2 * count`, ... of the label array, and each tick
      before that position reaches `MaxLabels` adds a point for good. */
  function Kept(count: nat, index: nat): (r: nat)
    requires count > 0
    ensures index < MaxLabels ==> 1 <= r <= MaxLabels - index
    ensures index >= MaxLabels ==> r == 0
    decreases MaxLabels - index
  {
    if index >= MaxLabels then 0 else 1 + Kept(count, index + count)
  }

  /** An empty or falsy response changes nothing. */
  lemma TickIgnoresEmptyResponse(st: ChartState, coins: seq<Symbol>, response: Response, time: string)
    requires |coins| == |st.datasets|
    requires response.None? || response.value == map[]
    ensures Tick(st, coins, response, time) == st
  {
  }

  /** Trimming to the last `MaxLabels` before a push and after it agree. */
  lemma WindowAppend<T>(s: seq<T>, x: T)
    ensures Window(Window(s) + [x]) == Window(s + [x])
  {
    if |s| > MaxLabels {
      assert (Window(s) + [x])[1..] == (s + [x])[|s| + 1 - MaxLabels..];
    }
  }

  /** One coin's turn of the `forEach`: the label is pushed and the labels
      trimmed to the window; this coin's dataset gains its point and loses its
      first one exactly when the labels were already full; no other dataset moves. */
  lemma PlotEffect(st: ChartState, index: nat, time: string, y: real)
    requires index < |st.datasets| && |st.labels| <= MaxLabels
    ensures var r := Plot(st, index, time, y);
      && r.labels == Window(st.labels + [time])
      && r.datasets[index] == (if |st.labels| < MaxLabels then st.datasets[index] + [Point(time, y)]
                               else (st.datasets[index] + [Point(time, y)])[1..])
      && |r.datasets| == |st.datasets|
      && forall j :: 0 <= j < |st.datasets| && j != index ==> r.datasets[j] == st.datasets[j]
  {
  }

  /** What the `forEach` has done after `k` coins: each handled dataset gained
      its point and lost its first one exactly when the label array overflowed
      at that coin; the labels are the last `MaxLabels` of all pushed so far;
      the datasets not reached yet are untouched. */
  lemma {:induction false} PlotFirstEffect(st: ChartState, coins: seq<Symbol>, graphData: map<string, Quote>, time: string, k: nat)
    requires k <= |coins| == |st.datasets| && |st.labels| <= MaxLabels
    ensures var r := PlotFirst(st, coins, graphData, time, k);
      && r.labels == Window(st.labels + Repeat(time, k))
      && (forall j :: 0 <= j < k ==>
            r.datasets[j] == if |st.labels| + j < MaxLabels then st.datasets[j] + [Point(time, PriceOf(graphData, coins[j]))]
                             else (st.datasets[j] + [Point(time, PriceOf(graphData, coins[j]))])[1..])
      && (forall j :: k <= j < |coins| ==> r.datasets[j] == st.datasets[j])
  {
    if k > 0 {
      PlotFirstEffect(st, coins, graphData, time, k - 1);
      var prev := PlotFirst(st, coins, graphData, time, k - 1);
      var pushed := st.labels + Repeat(time, k - 1);
      assert pushed + [time] == st.labels + Repeat(time, k);
      WindowAppend(pushed, time);
      assert |prev.labels| < MaxLabels <==> |st.labels| + (k - 1) < MaxLabels;
      PlotEffect(prev, k - 1, time, PriceOf(graphData, coins[k - 1]));
    }
  }

  /** A tick with a non-empty response gives every dataset exactly one new point
      at the end, priced from the batch or 0 when missing, and removes at most
      its first point: exactly when the shared labels were already full at that
      coin. The labels become the last `MaxLabels` of the old labels followed by
      one copy of the time per coin, so they never exceed `MaxLabels`. */
  lemma TickAppendsOnePoint(st: ChartState, coins: seq<Symbol>, graphData: map<string, Quote>, time: string)
    requires |coins| == |st.datasets| && |st.labels| <= MaxLabels && graphData != map[]
    ensures var r := Tick(st, coins, Some(graphData), time);
      && r.labels == Window(st.labels + Repeat(time, |coins|))
      && |r.labels| <= MaxLabels
      && forall j :: 0 <= j < |coins| ==>
           var grown := st.datasets[j] + [Point(time, PriceOf(graphData, coins[j]))];
           r.datasets[j] == if |st.labels| + j < MaxLabels then grown else grown[1..]
  {
    assert |graphData| != 0;
    PlotFirstEffect(st, coins, graphData, time, |coins|);
  }

  /** `Kept` in words: a dataset keeps growing on tick `n + 1` exactly while the
      labels of the first `n` ticks plus those of the coins before it leave room. */
  lemma {:induction false} KeptBound(count: nat, index: nat, n: nat)
    requires count > 0
    ensures n < Kept(count, index) <==> count * n + index < MaxLabels
    decreases n
  {
    if n > 0 && index < MaxLabels {
      KeptBound(count, index + count, n - 1);
      assert count * n == count * (n - 1) + count;
    }
  }

  /** The lengths after one tick with prices: the labels grow by one per coin
      up to `MaxLabels`, and a dataset grows by one unless the labels were full
      when its coin came up. */
  lemma TickLengths(st: ChartState, coins: seq<Symbol>, graphData: map<string, Quote>, time: string)
    requires |coins| == |st.datasets| && |st.labels| <= MaxLabels && graphData != map[]
    ensures var r := Tick(st, coins, Some(graphData), time);
      && |r.labels| == Min(|st.labels| + |coins|, MaxLabels)
      && forall j :: 0 <= j < |coins| ==>
           |r.datasets[j]| == |st.datasets[j]| + (if |st.labels| + j < MaxLabels then 1 else 0)
  {
    TickAppendsOnePoint(st, coins, graphData, time);
  }

  /** The arithmetic of one more tick in `RunLengths`. */
  lemma LengthsStep(count: nat, index: nat, n: nat, labels: int, points: int)
    requires count > 0 && n > 0
    requires labels == Min(count * (n - 1), MaxLabels) && points == Min(n - 1, Kept(count, index))
    ensures Min(labels + count, MaxLabels) == Min(count * n, MaxLabels)
    ensures points + (if labels + index < MaxLabels then 1 else 0) == Min(n, Kept(count, index))
  {
    assert count * n == count * (n - 1) + count;
    KeptBound(count, index, n - 1);
  }

  /** From a fresh chart, after `n` ticks that all received prices, the labels
      number `min(count * n, 20)` and the dataset at `index` holds
      `min(n, Kept(count, index))` points, where `count` is the number of coins:
      one label is pushed per coin, not per tick. */
  lemma {:induction false} RunLengths(coins: seq<Symbol>, samples: seq<Sample>)
    requires |coins| > 0
    requires forall k :: 0 <= k < |samples| ==> samples[k].response.Some? && samples[k].response.value != map[]
    ensures var r := Run(Fresh(coins), coins, samples);
      && |r.labels| == Min(|coins| * |samples|, MaxLabels)
      && forall j :: 0 <= j < |coins| ==> |r.datasets[j]| == Min(|samples|, Kept(|coins|, j))
  {
    var n := |samples|;
    if n > 0 {
      var init := samples[..n - 1];
      assert forall k :: 0 <= k < |init| ==> init[k] == samples[k];
      RunLengths(coins, init);
      var prev := Run(Fresh(coins), coins, init);
      var last := samples[n - 1];
      var r := Run(Fresh(coins), coins, samples);
      assert r == Tick(prev, coins, last.response, last.time);
      TickLengths(prev, coins, last.response.value, last.time);
      LengthsStep(|coins|, 0, n, |prev.labels|, |prev.datasets[0]|);
      forall j | 0 <= j < |coins|
        ensures |r.datasets[j]| == Min(n, Kept(|coins|, j))
      {
        LengthsStep(|coins|, j, n, |prev.labels|, |prev.datasets[j]|);
      }
    }
  }

  /** With one coin the chart keeps the design's sliding window: after `n` ticks
      there are `min(n, 20)` labels and points. */
  lemma OneCoinWindow(coin: Symbol, samples: seq<Sample>)
    requires forall k :: 0 <= k < |samples| ==> samples[k].response.Some? && samples[k].response.value != map[]
    ensures var r := Run(Fresh([coin]), [coin], samples);
      |r.labels| == Min(|samples|, MaxLabels) && |r.datasets[0]| == Min(|samples|, MaxLabels)
  {
    RunLengths([coin], samples);
    KeptBound(1, 0, 19);
    KeptBound(1, 0, 20);
  }

  /** With two coins the label array fills after ten ticks, and from then on
      every tick pushes and shifts each dataset, which stay at ten points. */
  lemma TwoCoinsStallAtTen(a: Symbol, b: Symbol, samples: seq<Sample>)
    requires |samples| >= 10
    requires forall k :: 0 <= k < |samples| ==> samples[k].response.Some? && samples[k].response.value != map[]
    ensures var r := Run(Fresh([a, b]), [a, b], samples);
      |r.labels| == 20 && |r.datasets[0]| == 10 && |r.datasets[1]| == 10
  {
    RunLengths([a, b], samples);
    KeptBound(2, 0, 9);
    KeptBound(2, 0, 10);
    KeptBound(2, 1, 9);
    KeptBound(2, 1, 10);
  }

  /** With three coins the datasets drift apart: from the seventh tick on the
      third coin's dataset is one point shorter than the other two. */
  lemma ThreeCoinsMisaligned(a: Symbol, b: Symbol, c: Symbol, samples: seq<Sample>)
    requires |samples| >= 7
    requires forall k :: 0 <= k < |samples| ==> samples[k].response.Some? && samples[k].response.value != map[]
    ensures var r := Run(Fresh([a, b, c]), [a, b, c], samples);
      |r.datasets[0]| == 7 && |r.datasets[1]| == 7 && |r.datasets[2]| == 6
  {
    RunLengths([a, b, c], samples);
    KeptBound(3, 0, 6);
    KeptBound(3, 0, 7);
    KeptBound(3, 1, 6);
    KeptBound(3, 1, 7);
    KeptBound(3, 2, 5);
    KeptBound(3, 2, 6);
  }

  /** The chart's data object, which `updateGraph` changes in place. */
  class ChartData {
    const coins: seq<Symbol>
    var labels: seq<string>
    var datasets: seq<seq<Point>>

    ghost predicate Valid()
      reads this
    {
      |datasets| == |coins|
    }

    function State(): ChartState
      reads this
    {
      ChartState(labels, datasets)
    }

    /** The `data` object `generateGraph` builds for the selected coins. */
    constructor (coins: seq<Symbol>)
      ensures Valid() && this.coins == coins && State() == Fresh(coins)
    {
      this.coins := coins;
      labels := [];
      datasets := seq(|coins|, _ => []);
    }

    /** `updateGraph` once its fetch has settled with `response`, at the time
        labelled `currentTime`. */
    method UpdateGraph(response: Response, currentTime: string)
      requires Valid()
      modifies this
      ensures Valid() && State() == Tick(old(State()), coins, response, currentTime)
    {
      if response.None? || |response.value| == 0 {
        return;
      }
      var graphData := response.value;
      var index := 0;
      while index < |coins|
        invariant 0 <= index <= |coins| && Valid()
        invariant State() == PlotFirst(old(State()), coins, graphData, currentTime, index)
      {
        var cap := Text.Upper(coins[index]);
        if cap in graphData && graphData[cap].usd.Some? {
          var price := graphData[cap].usd.value;
          labels := labels + [currentTime];
          datasets := datasets[index := datasets[index] + [Point(currentTime, price)]];
        } else {
          labels := labels + [currentTime];
          datasets := datasets[index := datasets[index] + [Point(currentTime, 0.0)]];
        }
        if |labels| > MaxLabels {
          labels := Shift(labels);
          datasets := datasets[index := Shift(datasets[index])];
        }
        index := index + 1;
      }
    }
  }

  /** The module-level `chart` and `updateInterval` of the page, with the set of
      interval handles the browser is running for them. */
  class Feed {
    var chart: ChartData?
    var updateInterval: Option<nat>
    var timers: set<nat>

    /** Idle: no chart, no handle, and no timer running. */
    ghost predicate Idle()
      reads this
    {
      chart == null && updateInterval.None? && timers == {}
    }

    /** Polling: one chart and one running timer, the one the handle names. */
    ghost predicate Polling()
      reads this
    {
      chart != null && updateInterval.Some? && timers == {updateInterval.value}
    }

    constructor ()
      ensures Idle()
    {
      chart := null;
      updateInterval := None;
      timers := {};
    }

    /** `resetGraph`: destroy the chart and clear the interval, if set. Both
        handles end up null; a second call changes nothing. */
    method ResetGraph()
      modifies this
      ensures chart == null && updateInterval.None?
      ensures timers == if old(updateInterval).Some? then old(timers) - {old(updateInterval).value} else old(timers)
      ensures old(Idle() || Polling()) ==> Idle()
      ensures old(chart == null && updateInterval.None?) ==> timers == old(timers)
    {
      if chart != null {
        chart := null;
      }
      if updateInterval.Some? {
        timers := timers - {updateInterval.value};
        updateInterval := None;
      }
    }

    /** `generateGraph(coins)`: a new chart with an empty dataset per coin and a
        new interval `handle` for its ticks. From Idle this is Polling; from
        Polling, without a reset first, the old timer keeps running. */
    method GenerateGraph(coins: seq<Symbol>, handle: nat)
      requires handle !in timers
      modifies this
      ensures chart != null && fresh(chart)
      ensures chart.Valid() && chart.coins == coins && chart.State() == Fresh(coins)
      ensures updateInterval == Some(handle) && timers == old(timers) + {handle}
      ensures old(Idle()) ==> Polling()
      ensures old(Polling()) ==> |timers| == 2
    {
      chart := new ChartData(coins);
      updateInterval := Some(handle);
      timers := timers + {handle};
    }
  }
}
