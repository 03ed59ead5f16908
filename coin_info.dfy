/** The coin detail view: the request for a coin's two-day price history, the
    priceData/loading lifecycle, the choice between the placeholder skeleton and the
    line chart, and the conversion of the history into chart axes. */
module CoinInfo {
  import opened Wrappers
  import opened Coins

  const HistoryBase: string := "https://api.coingecko.com/api/v3/coins/"

  /** One hour in milliseconds. */
  const HourMs: int := 1000 * 60 * 60

  // ---------------------------------------------------------------------------
  // Chart axes

  /** getLastNHours: `n` timestamps an hour apart, the last one an hour before `base`.
      `base` stands for the clock's current time with its minutes set to zero. */
  function LastNHours(n: nat, base: int): (r: seq<int>)
    ensures |r| == n
    ensures n > 0 ==> r[n - 1] == base - HourMs
    ensures forall i :: 0 < i < n ==> r[i] == r[i - 1] + HourMs
  {
    seq(n, i requires 0 <= i < n => base - HourMs * (n - i))
  }

  /** Element `i` is `n - i` hours before `base`: this follows from the contract alone. */
  lemma {:induction false} LastNHoursAt(n: nat, base: int, i: nat)
    requires i < n
    ensures LastNHours(n, base)[i] == base - HourMs * (n - i)
    decreases n - i
  {
    if i < n - 1 {
      LastNHoursAt(n, base, i + 1);
      assert LastNHours(n, base)[i + 1] == LastNHours(n, base)[i] + HourMs;
    }
  }

  /** The labels rise strictly, by exactly one hour per step, and all lie before `base`. */
  lemma LastNHoursIncreasing(n: nat, base: int, i: nat, j: nat)
    requires i < j < n
    ensures LastNHours(n, base)[j] - LastNHours(n, base)[i] == HourMs * (j - i)
    ensures LastNHours(n, base)[i] < LastNHours(n, base)[j] < base
  {
    LastNHoursAt(n, base, i);
    LastNHoursAt(n, base, j);
  }

  /** The price axis: the second component of every `[timestamp, price]` pair, in order. */
  function PriceValues(prices: seq<Sample>): (r: seq<real>)
    ensures |r| == |prices|
    ensures forall i :: 0 <= i < |prices| ==> r[i] == prices[i].price
  {
    seq(|prices|, i requires 0 <= i < |prices| => prices[i].price)
  }

  /** What the detail view draws under its title. */
  datatype View = Skeleton | LineChart(labels: seq<int>, values: seq<real>)

  /** The line chart for a history: one time label per sample, computed from `base`
      and the number of samples alone, and the sample prices. */
  function ChartFor(h: PriceHistory, base: int): (v: View)
    ensures v.LineChart?
    ensures v.labels == LastNHours(|h.prices|, base)
    ensures |v.labels| == |v.values| == |h.prices|
    ensures v.values == PriceValues(h.prices)
  {
    LineChart(LastNHours(|h.prices|, base), PriceValues(h.prices))
  }

  /** The time labels ignore the samples' own timestamps: two histories of the same
      length get the same labels. The prices ignore them too. */
  lemma LabelsIgnoreTimestamps(g: PriceHistory, h: PriceHistory, base: int)
    requires |g.prices| == |h.prices|
    ensures ChartFor(g, base).labels == ChartFor(h, base).labels
    ensures (forall i :: 0 <= i < |g.prices| ==> g.prices[i].price == h.prices[i].price)
      ==> ChartFor(g, base).values == ChartFor(h, base).values
  {
  }

  /** The base case of the axes, restated: an empty history is a valid result and
      draws an empty chart. */
  lemma EmptyHistoryChart(base: int)
    ensures ChartFor(PriceHistory([]), base) == LineChart([], [])
  {
  }

  /** Three samples get three labels, rising by the hour and ending an hour before `base`. */
  lemma ThreeSampleLabels(a: Sample, b: Sample, c: Sample, base: int)
    ensures ChartFor(PriceHistory([a, b, c]), base)
      == LineChart([base - 3 * HourMs, base - 2 * HourMs, base - HourMs], [a.price, b.price, c.price])
  {
  }

  // ---------------------------------------------------------------------------
  // History request

  /** The URL template of the history request for coin `id` in currency `c`. */
  function HistoryUrl(id: string, c: Currency): string {
    HistoryBase + id + "/market_chart/?vs_currency=" + CurrencyCode(c) + "&days=2"
  }

  /** What follows the coin id in a history URL. */
  function HistoryTail(c: Currency): string {
    "/market_chart/?vs_currency=" + CurrencyCode(c) + "&days=2"
  }

  predicate EndsWith(s: string, suffix: string) {
    |suffix| <= |s| && s[|s| - |suffix|..] == suffix
  }

  /** Reads the coin id and the currency back from a history URL. The id is whatever
      lies between the fixed prefix and the fixed tail, so it may hold any character. */
  function DecodeHistoryUrl(url: string): Option<(string, Currency)> {
    if |url| < |HistoryBase| || url[..|HistoryBase|] != HistoryBase then None
    else
      var rest := url[|HistoryBase|..];
      if EndsWith(rest, HistoryTail(USD)) then Some((rest[..|rest| - |HistoryTail(USD)|], USD))
      else if EndsWith(rest, HistoryTail(EUR)) then Some((rest[..|rest| - |HistoryTail(EUR)|], EUR))
      else None
  }

  lemma HistoryTails()
    ensures |HistoryTail(USD)| == |HistoryTail(EUR)|
    ensures HistoryTail(USD) != HistoryTail(EUR)
  {
    var k := |"/market_chart/?vs_currency="|;
    assert HistoryTail(USD)[k] == 'u' && HistoryTail(EUR)[k] == 'e';
  }

  /** A text made of a prefix, a middle and a suffix gives back each of them. */
  lemma Pieces(prefix: string, middle: string, suffix: string)
    ensures (prefix + (middle + suffix))[..|prefix|] == prefix
    ensures (prefix + (middle + suffix))[|prefix|..] == middle + suffix
    ensures (middle + suffix)[..|middle|] == middle
    ensures (middle + suffix)[|middle|..] == suffix
  {
  }

  lemma HistoryUrlShape(id: string, c: Currency)
    ensures HistoryUrl(id, c) == HistoryBase + (id + HistoryTail(c))
  {
    ConcatAssoc5(HistoryBase, id, "/market_chart/?vs_currency=", CurrencyCode(c), "&days=2");
  }

  /** Concatenation of five texts, regrouped to the right. */
  lemma ConcatAssoc5(a: string, b: string, c: string, d: string, e: string)
    ensures a + b + c + d + e == a + (b + (c + d + e))
  {
  }

  /** The URL encodes exactly the coin id and the currency, with a fixed two-day window:
      both can be read back from it, whatever the id holds. */
  lemma HistoryUrlRoundTrip(id: string, c: Currency)
    ensures DecodeHistoryUrl(HistoryUrl(id, c)) == Some((id, c))
  {
    HistoryUrlShape(id, c);
    Pieces(HistoryBase, id, HistoryTail(c));
    HistoryTails();
  }

  /** Two history requests share a URL only when they ask for the same coin and currency. */
  lemma HistoryUrlInjective(id1: string, c1: Currency, id2: string, c2: Currency)
    ensures HistoryUrl(id1, c1) == HistoryUrl(id2, c2) <==> id1 == id2 && c1 == c2
  {
    HistoryUrlRoundTrip(id1, c1);
    HistoryUrlRoundTrip(id2, c2);
  }

  // ---------------------------------------------------------------------------
  // Component state and its lifecycle

  /** The detail component's props (the coin and the currency) and its state fields;
      `priceData == None` is the component's `null`, "no data". */
  datatype DetailState = DetailState(coin: Coin, currency: Currency, priceData: Option<PriceHistory>, loading: bool)

  /** The state on first render: no data yet, and loading. */
  function InitialDetail(coin: Coin, currency: Currency): (s: DetailState)
    ensures s.coin == coin && s.currency == currency && s.priceData.None? && s.loading
  {
    DetailState(coin, currency, None, true)
  }

  /** The chart is drawn exactly when nothing is loading and there is data; otherwise
      the placeholder skeleton stands in its place. */
  function ViewOf(s: DetailState, base: int): (v: View)
    ensures v.LineChart? <==> !s.loading && s.priceData.Some?
    ensures v.LineChart? ==> v == ChartFor(s.priceData.value, base)
  {
    if s.loading || s.priceData.None? then Skeleton else ChartFor(s.priceData.value, base)
  }

  /** What the stored price data becomes when a history request settles. */
  function Stored(r: Response<PriceHistory>): (d: Option<PriceHistory>)
    ensures r.Ok? <==> d.Some?
    ensures r.Ok? ==> d.value == r.payload
  {
    match r
    case Ok(h) => Some(h)
    case Err => None
  }

  /** What can happen to the detail view: new props, a fetch begun, a fetch settled. */
  datatype Event =
    | PropsChanged(coin: Coin, currency: Currency)
    | FetchBegun
    | FetchSettled(response: Response<PriceHistory>)

  function Step(s: DetailState, e: Event): DetailState {
    match e
    case PropsChanged(coin, currency) => s.(coin := coin, currency := currency)
    case FetchBegun => s.(loading := true)
    case FetchSettled(r) => s.(priceData := Stored(r), loading := false)
  }

  /** The state after the events `es`, oldest first. */
  function Run(s: DetailState, es: seq<Event>): DetailState
    decreases |es|
  {
    if |es| == 0 then s else Step(Run(s, es[..|es| - 1]), es[|es| - 1])
  }

  /** Event `i` is the last fetch to begin or settle in `es`. */
  predicate LastLifecycle(es: seq<Event>, i: int) {
    0 <= i < |es| && !es[i].PropsChanged? && forall j :: i < j < |es| ==> es[j].PropsChanged?
  }

  /** Event `i` is the last fetch to settle in `es`. */
  predicate LastSettled(es: seq<Event>, i: int) {
    0 <= i < |es| && es[i].FetchSettled? && forall j :: i < j < |es| ==> !es[j].FetchSettled?
  }

  /** The stored data is that of the last fetch to settle, whichever coin it was begun
      for: a failure stores "no data". */
  lemma {:induction false} RunPriceData(s: DetailState, es: seq<Event>, i: int)
    requires LastSettled(es, i)
    ensures Run(s, es).priceData == Stored(es[i].response)
    decreases |es|
  {
    var init, last := es[..|es| - 1], es[|es| - 1];
    assert Run(s, es).priceData == Step(Run(s, init), last).priceData;
    if i < |es| - 1 {
      assert LastSettled(init, i) by {
        forall j | i < j < |init| ensures !init[j].FetchSettled? { assert init[j] == es[j]; }
      }
      RunPriceData(s, init, i);
    }
  }

  /** Loading is raised by the last fetch begun and lowered by the next settlement. */
  lemma {:induction false} RunLoading(s: DetailState, es: seq<Event>, i: int)
    requires LastLifecycle(es, i)
    ensures Run(s, es).loading == es[i].FetchBegun?
    decreases |es|
  {
    var init, last := es[..|es| - 1], es[|es| - 1];
    assert Run(s, es).loading == Step(Run(s, init), last).loading;
    if i < |es| - 1 {
      assert LastLifecycle(init, i) by {
        forall j | i < j < |init| ensures init[j].PropsChanged? { assert init[j] == es[j]; }
      }
      RunLoading(s, init, i);
    }
  }

  /** Once any fetch has begun, the chart is shown exactly when the latest fetch event is
      a successful settlement: a failure, or a fetch still in flight, leaves the skeleton. */
  lemma RunView(s: DetailState, es: seq<Event>, i: int, base: int)
    requires LastLifecycle(es, i)
    ensures ViewOf(Run(s, es), base).LineChart? <==> es[i].FetchSettled? && es[i].response.Ok?
    ensures ViewOf(Run(s, es), base).LineChart? ==> ViewOf(Run(s, es), base) == ChartFor(es[i].response.payload, base)
  {
    RunLoading(s, es, i);
    if es[i].FetchSettled? {
      assert LastSettled(es, i);
      RunPriceData(s, es, i);
    }
  }

  /** No stale-result suppression: when the props move from coin A to coin B and A's
      history arrives after B's, the view for B draws A's prices. */
  lemma LateHistoryShownForNewCoin(s: DetailState, b: Coin, forA: PriceHistory, forB: PriceHistory, base: int)
    ensures var es := [FetchBegun, PropsChanged(b, s.currency), FetchBegun,
                       FetchSettled(Ok(forB)), FetchSettled(Ok(forA))];
      Run(s, es).coin == b && ViewOf(Run(s, es), base) == ChartFor(forA, base)
  {
    var es := [FetchBegun, PropsChanged(b, s.currency), FetchBegun,
               FetchSettled(Ok(forB)), FetchSettled(Ok(forA))];
    assert LastLifecycle(es, 4);
    RunView(s, es, 4, base);
    assert es[..4][..3] == es[..3] && es[..3][..2] == es[..2] && es[..2][..1] == es[..1];
    assert Run(s, es[..2]).coin == b;
    assert Run(s, es[..3]).coin == b;
    assert Run(s, es[..4]).coin == b;
  }

  // ---------------------------------------------------------------------------
  // The component

  /** The CoinInfo component: its props and its state fields, updated in place. */
  class Detail {
    var coin: Coin
    var currency: Currency
    var priceData: Option<PriceHistory>
    var loading: bool

    function State(): DetailState
      reads this
    {
      DetailState(coin, currency, priceData, loading)
    }

    constructor (coin: Coin, currency: Currency)
      ensures State() == InitialDetail(coin, currency)
    {
      this.coin := coin;
      this.currency := currency;
      priceData := None;
      loading := true;
    }

    /** The parent renders the view again with another coin or currency. */
    method ReceiveProps(coin: Coin, currency: Currency)
      modifies this
      ensures State() == Step(old(State()), PropsChanged(coin, currency))
    {
      this.coin := coin;
      this.currency := currency;
    }

    /** The effect: raise the loading flag and request the current coin's history. */
    method BeginFetch() returns (url: string)
      modifies this
      ensures url == HistoryUrl(old(coin).id, old(currency))
      ensures State() == Step(old(State()), FetchBegun)
    {
      loading := true;
      url := HistoryUrl(coin.id, currency);
    }

    /** The request succeeded: the history is stored, then loading ends. */
    method ResolveOk(history: PriceHistory)
      modifies this
      ensures State() == Step(old(State()), FetchSettled(Ok(history)))
    {
      priceData := Some(history);
      loading := false;
    }

    /** The request failed: the data becomes null, then loading ends. */
    method ResolveErr()
      modifies this
      ensures State() == Step(old(State()), FetchSettled(Err))
    {
      priceData := None;
      loading := false;
    }

    /** `loading || !priceData`: whether the skeleton is drawn instead of the chart. */
    function ShowsSkeleton(): (b: bool)
      reads this
      ensures b <==> loading || priceData.None?
      ensures forall base :: b <==> ViewOf(State(), base) == Skeleton
    {
      loading || priceData.None?
    }
  }
}
