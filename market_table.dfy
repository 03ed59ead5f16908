/** The market table: its filter state (currency, sort order, pagination window), the
    request URL built from that state, the fetch lifecycle over the displayed rows and
    the loading flag, and the column descriptors derived from the currency. */
module MarketTable {
  import opened Wrappers
  import opened Coins
  import Decimal
  import Query
  import Sparkline

  const ApiUrl: string := "https://api.coingecko.com/api/v3/coins/markets"

  // ---------------------------------------------------------------------------
  // Columns

  /** What a column draws in its cells: the value as it is, the coin's icon beside its
      name, the 24h-change sparkline, or the value followed by a currency code. */
  datatype Render = Plain | NameWithImage | Trend | WithCurrency(currency: Currency)

  datatype Column = Column(title: string, dataIndex: string, key: string, render: Render)

  const PriceKey: string := "current_price"

  /** The static column descriptors, in display order. */
  const CoinTableColumns: seq<Column> := [
    Column("Name", "name", "name", NameWithImage),
    Column("Current Price", "current_price", "current_price", Plain),
    Column("24H Price Change, %", "price_change_percentage_24h", "price_change_percentage_24h", Trend),
    Column("Circulating Supply", "circulating_supply", "circulating_supply", Plain)
  ]

  /** `cols` with the price column's renderer replaced by one that appends `c`; every
      column keeps its place, title, data index and key, and the others are untouched. */
  function WithPriceRenderer(cols: seq<Column>, c: Currency): (r: seq<Column>)
    ensures |r| == |cols|
    ensures forall i :: 0 <= i < |r| ==>
      r[i].title == cols[i].title && r[i].dataIndex == cols[i].dataIndex && r[i].key == cols[i].key
    ensures forall i :: 0 <= i < |r| && cols[i].key == PriceKey ==> r[i].render == WithCurrency(c)
    ensures forall i :: 0 <= i < |r| && cols[i].key != PriceKey ==> r[i] == cols[i]
  {
    if |cols| == 0 then []
    else
      var head := if cols[0].key == PriceKey then cols[0].(render := WithCurrency(c)) else cols[0];
      [head] + WithPriceRenderer(cols[1..], c)
  }

  /** getCoinTableColumns: the columns the table is given for the active currency. */
  function CoinTableColumnsFor(c: Currency): seq<Column> {
    WithPriceRenderer(CoinTableColumns, c)
  }

  /** The text a cell shows for the value `text`, for the renderers that produce text;
      `None` for cells drawn as widgets. */
  function CellText(r: Render, text: string): Option<string> {
    match r
    case Plain => Some(text)
    case WithCurrency(c) => Some(text + " " + CurrencyCode(c))
    case NameWithImage => None
    case Trend => None
  }

  /** For every currency the columns are the four static ones in their order, and only
      the price column appends that currency: its cell reads the value, a space and the code. */
  lemma PriceColumnShowsCurrency(c: Currency, text: string)
    ensures |CoinTableColumnsFor(c)| == 4
    ensures forall i :: 0 <= i < 4 ==> CoinTableColumnsFor(c)[i].key == CoinTableColumns[i].key
    ensures forall i :: 0 <= i < 4 ==>
      (CoinTableColumnsFor(c)[i].render.WithCurrency? <==> CoinTableColumns[i].key == PriceKey)
    ensures CoinTableColumnsFor(c)[1].key == PriceKey
    ensures CellText(CoinTableColumnsFor(c)[1].render, text) == Some(text + " " + CurrencyCode(c))
    ensures forall i :: 0 <= i < 4 && i != 1 ==> CoinTableColumnsFor(c)[i] == CoinTableColumns[i]
  {
  }

  /** The currency changes the price column and nothing else. */
  lemma ColumnsDependOnlyOnPrice(c: Currency, d: Currency)
    ensures forall i :: 0 <= i < |CoinTableColumns| && CoinTableColumns[i].key != PriceKey ==>
      CoinTableColumnsFor(c)[i] == CoinTableColumnsFor(d)[i]
    ensures CoinTableColumnsFor(c) == CoinTableColumnsFor(d) <==> c == d
  {
    assert CoinTableColumns[1].key == PriceKey;
    var cc, dd := CoinTableColumnsFor(c), CoinTableColumnsFor(d);
    assert cc[1].render == WithCurrency(c) && dd[1].render == WithCurrency(d);
  }

  /** The direction the 24h-change cell draws: up exactly when the change is a number
      strictly above zero; zero, negative and null changes are drawn going down. */
  function GoingUp(change: Option<real>): (up: bool)
    ensures up <==> change.Some? && change.value > 0.0
  {
    match change
    case Some(v) => v > 0.0
    case None => false
  }

  /** The sparkline drawn in the 24h-change column for a coin's change. */
  function TrendCell(change: Option<real>): (chart: Sparkline.Chart)
    ensures chart.stroke == "green" <==> change.Some? && change.value > 0.0
    ensures chart.data == Sparkline.DataUp <==> change.Some? && change.value > 0.0
  {
    Sparkline.Render(GoingUp(change))
  }

  // ---------------------------------------------------------------------------
  // Pagination window

  /** One field of a JavaScript object: the key is absent, or present with a value that
      may itself be `undefined`. */
  datatype Slot = Absent | Present(value: Option<int>)

  /** The three fields of the table's pagination record that the dashboard uses. */
  datatype Pagination = Pagination(current: Slot, pageSize: Slot, total: Slot)

  datatype PageField = Current | PageSize | Total

  function Field(p: Pagination, f: PageField): Slot {
    match f
    case Current => p.current
    case PageSize => p.pageSize
    case Total => p.total
  }

  /** An update that supplies no field. */
  const NoUpdate: Pagination := Pagination(Absent, Absent, Absent)

  function MergeSlot(before: Slot, supplied: Slot): Slot {
    if supplied.Present? then supplied else before
  }

  /** `{ ...prev, ...update }`: the window after the table reports a change. */
  function Merge(prev: Pagination, update: Pagination): Pagination {
    Pagination(
      MergeSlot(prev.current, update.current),
      MergeSlot(prev.pageSize, update.pageSize),
      MergeSlot(prev.total, update.total))
  }

  /** The spread law, restated field by field from `Merge`: every field the update
      supplies replaces the old one, even with `undefined`; every field it leaves out
      keeps its previous value. */
  lemma MergeFields(prev: Pagination, update: Pagination, f: PageField)
    ensures Field(update, f).Present? ==> Field(Merge(prev, update), f) == Field(update, f)
    ensures Field(update, f).Absent? ==> Field(Merge(prev, update), f) == Field(prev, f)
  {
  }

  /** Merging an empty update is the identity, and merging the same update twice is
      merging it once; two successive merges are one merge of the combined update. */
  lemma MergeLaws(p: Pagination, u: Pagination, v: Pagination)
    ensures Merge(p, NoUpdate) == p
    ensures Merge(Merge(p, u), u) == Merge(p, u)
    ensures Merge(Merge(p, u), v) == Merge(p, Merge(u, v))
  {
  }

  /** Whether JavaScript's `||` keeps the field: it is present, defined and not zero. */
  predicate Truthy(s: Slot) {
    s.Present? && s.value.Some? && s.value.value != 0
  }

  /** `field || fallback` on a number field. */
  function OrDefault(s: Slot, fallback: int): (r: int)
    ensures Truthy(s) ==> r == s.value.value
    ensures !Truthy(s) ==> r == fallback
  {
    match s
    case Present(Some(v)) => if v != 0 then v else fallback
    case _ => fallback
  }

  /** The page asked for: the current page, or 1 when it is missing or zero. */
  function RequestedPage(p: Pagination): (page: int)
    ensures page != 0
    ensures Truthy(p.current) ==> page == p.current.value.value
    ensures !Truthy(p.current) ==> page == 1
  {
    OrDefault(p.current, 1)
  }

  /** The page size asked for: the page size, or 10 when it is missing or zero. */
  function RequestedRows(p: Pagination): (rows: int)
    ensures rows != 0
    ensures Truthy(p.pageSize) ==> rows == p.pageSize.value.value
    ensures !Truthy(p.pageSize) ==> rows == 10
  {
    OrDefault(p.pageSize, 10)
  }

  // ---------------------------------------------------------------------------
  // Request URL

  /** The four values `getData` is called with. */
  datatype MarketRequest = MarketRequest(page: int, rows: int, currency: Currency, order: Order)

  /** The URL template of `getData`. */
  function MarketUrl(r: MarketRequest): string {
    ApiUrl + "/?vs_currency=" + CurrencyCode(r.currency) + "&order=" + OrderCode(r.order)
      + "&per_page=" + Decimal.IntText(r.rows) + "&page=" + Decimal.IntText(r.page)
      + "&sparkline=false"
  }

  /** The parameters a request sends, in the order it sends them. */
  function MarketParams(r: MarketRequest): seq<Query.Param> {
    [("vs_currency", CurrencyCode(r.currency)), ("order", OrderCode(r.order)),
     ("per_page", Decimal.IntText(r.rows)), ("page", Decimal.IntText(r.page)),
     ("sparkline", "false")]
  }

  lemma IntTextHasNoAmpersand(i: int)
    ensures '&' !in Decimal.IntText(i)
  {
    Decimal.IntTextAlphabet(i);
  }

  /** Regrouping of the concatenations in the URL template; the texts are left abstract
      so that only the grouping is reasoned about. */
  lemma TemplateRegroup(a: string, p: string, eq: string, amp: string, k0: string, cur: string, k1: string, ord: string,
                k2: string, rows: string, k3: string, page: string, k4: string, v4: string)
    ensures a + (p + k0 + eq) + cur + (amp + k1 + eq) + ord + (amp + k2 + eq) + rows + (amp + k3 + eq) + page + (amp + k4 + eq + v4)
      == a + p + ((k0 + eq + cur) + amp + ((k1 + eq + ord) + amp + ((k2 + eq + rows) + amp + ((k3 + eq + page) + amp + (k4 + eq + v4)))))
  {
  }

  /** A five-parameter query written out. */
  lemma EncodeFive(p0: Query.Param, p1: Query.Param, p2: Query.Param, p3: Query.Param, p4: Query.Param)
    ensures Query.EncodeQuery([p0, p1, p2, p3, p4])
      == Query.EncodeParam(p0) + "&" + (Query.EncodeParam(p1) + "&" + (Query.EncodeParam(p2) + "&"
         + (Query.EncodeParam(p3) + "&" + Query.EncodeParam(p4))))
  {
    var e := Query.EncodeParams([p0, p1, p2, p3, p4]);
    assert Query.Join(e[4..], '&') == e[4];
    assert e[3..][1..] == e[4..];
    assert Query.Join(e[3..], '&') == e[3] + "&" + e[4];
    assert e[2..][1..] == e[3..];
    assert Query.Join(e[2..], '&') == e[2] + "&" + Query.Join(e[3..], '&');
    assert e[1..][1..] == e[2..];
    assert Query.Join(e[1..], '&') == e[1] + "&" + Query.Join(e[2..], '&');
  }

  /** The URL template's fixed texts, cut into separators and parameter names. */
  lemma TemplateTexts()
    ensures "/?vs_currency=" == "/?" + "vs_currency" + "="
    ensures "&order=" == "&" + "order" + "="
    ensures "&per_page=" == "&" + "per_page" + "="
    ensures "&page=" == "&" + "page" + "="
    ensures "&sparkline=false" == "&" + "sparkline" + "=" + "false"
  {
  }

  /** The URL is the endpoint, `/?` and the request's parameters written as a query. */
  lemma MarketUrlShape(r: MarketRequest)
    ensures MarketUrl(r) == ApiUrl + "/?" + Query.EncodeQuery(MarketParams(r))
  {
    var cur, ord := CurrencyCode(r.currency), OrderCode(r.order);
    var rows, page := Decimal.IntText(r.rows), Decimal.IntText(r.page);
    EncodeFive(("vs_currency", cur), ("order", ord), ("per_page", rows), ("page", page), ("sparkline", "false"));
    TemplateTexts();
    TemplateRegroup(ApiUrl, "/?", "=", "&", "vs_currency", cur, "order", ord, "per_page", rows, "page", page, "sparkline", "false");
  }

  /** The parameter names and the fixed value hold no separator. */
  lemma ParamNamesPlain()
    ensures '=' !in "vs_currency" && '&' !in "vs_currency"
    ensures '=' !in "order" && '&' !in "order"
    ensures '=' !in "per_page" && '&' !in "per_page"
    ensures '=' !in "page" && '&' !in "page"
    ensures '=' !in "sparkline" && '&' !in "sparkline" && '&' !in "false"
  {
  }

  /** The query of a market URL reads back as exactly five parameters: currency, order,
      page size, page and `sparkline=false`, in that order and with no others. */
  lemma MarketUrlParams(r: MarketRequest)
    ensures Query.ParseQuery(Query.EncodeQuery(MarketParams(r))) == MarketParams(r)
  {
    var ps := MarketParams(r);
    IntTextHasNoAmpersand(r.rows);
    IntTextHasNoAmpersand(r.page);
    ParamNamesPlain();
    assert Query.Plain(ps[0]) && Query.Plain(ps[1]) && Query.Plain(ps[2]);
    assert Query.Plain(ps[3]) && Query.Plain(ps[4]);
    Query.QueryRoundTrip(ps);
  }

  /** Reads the four request values back out of a market URL. */
  function DecodeMarketUrl(url: string): Option<MarketRequest> {
    var prefix := ApiUrl + "/?";
    if |url| < |prefix| || url[..|prefix|] != prefix then None
    else
      var ps := Query.ParseQuery(url[|prefix|..]);
      if |ps| != 5 || ps[0].0 != "vs_currency" || ps[1].0 != "order" || ps[2].0 != "per_page"
        || ps[3].0 != "page" || ps[4] != ("sparkline", "false")
      then None
      else
        match (CurrencyOf(ps[0].1), OrderOf(ps[1].1), Decimal.ParseInt(ps[2].1), Decimal.ParseInt(ps[3].1))
        case (Some(c), Some(o), Some(rows), Some(page)) => Some(MarketRequest(page, rows, c, o))
        case _ => None
  }

  /** The URL encodes exactly the four request values: they can be read back from it. */
  lemma MarketUrlRoundTrip(r: MarketRequest)
    ensures DecodeMarketUrl(MarketUrl(r)) == Some(r)
  {
    MarketUrlShape(r);
    MarketUrlParams(r);
    var prefix := ApiUrl + "/?";
    var url := MarketUrl(r);
    assert url[..|prefix|] == prefix;
    assert url[|prefix|..] == Query.EncodeQuery(MarketParams(r));
  }

  /** Two requests share a URL only when they are the same request. */
  lemma MarketUrlInjective(a: MarketRequest, b: MarketRequest)
    ensures MarketUrl(a) == MarketUrl(b) <==> a == b
  {
    MarketUrlRoundTrip(a);
    MarketUrlRoundTrip(b);
  }

  // ---------------------------------------------------------------------------
  // Component state and its lifecycle

  /** The table component's state fields. */
  datatype TableState = TableState(
    data: seq<Coin>,
    currency: Currency,
    order: Order,
    pagination: Pagination,
    loading: bool)

  const InitialPagination: Pagination := Pagination(Present(Some(1)), Present(Some(10)), Present(Some(10000)))

  /** The state on first render: no rows, USD, market cap descending, page 1 of size 10
      out of 10000, and loading. */
  const Initial: TableState := TableState([], USD, MarketCapDesc, InitialPagination, true)

  /** The request a fetch begun in state `s` makes. */
  function RequestOf(s: TableState): MarketRequest {
    MarketRequest(RequestedPage(s.pagination), RequestedRows(s.pagination), s.currency, s.order)
  }

  /** The first fetch asks for page 1 of 10 rows in USD by descending market cap. */
  lemma InitialRequest()
    ensures RequestOf(Initial) == MarketRequest(1, 10, USD, MarketCapDesc)
    ensures MarketParams(RequestOf(Initial)) == [("vs_currency", "usd"), ("order", "market_cap_desc"),
      ("per_page", "10"), ("page", "1"), ("sparkline", "false")]
  {
    assert Decimal.NatText(1) == "1";
    assert Decimal.NatText(10) == Decimal.NatText(1) + "0";
    assert Decimal.IntText(10) == "10" && Decimal.IntText(1) == "1";
  }

  /** After the table reports page 2 in EUR by ascending market cap, the fetch sends
      exactly those values with the page size kept at 10. */
  lemma SecondPageInEuros()
    ensures var t := Run(Initial, [CurrencySelected(EUR), OrderSelected(MarketCapAsc),
                              TableChanged(Pagination(Present(Some(2)), Absent, Absent))]);
      MarketParams(RequestOf(t)) == [("vs_currency", "eur"), ("order", "market_cap_asc"),
        ("per_page", "10"), ("page", "2"), ("sparkline", "false")]
  {
    var es := [CurrencySelected(EUR), OrderSelected(MarketCapAsc),
               TableChanged(Pagination(Present(Some(2)), Absent, Absent))];
    var s := Initial;
    assert es[..2][..1] == es[..1] && es[..1][..0] == [];
    assert Run(s, es[..1]) == s.(currency := EUR);
    assert Run(s, es[..2]) == s.(currency := EUR, order := MarketCapAsc);
    assert Run(s, es).pagination == Pagination(Present(Some(2)), Present(Some(10)), Present(Some(10000)));
    assert Decimal.NatText(1) == "1" && Decimal.NatText(2) == "2";
    assert Decimal.NatText(10) == Decimal.NatText(1) + "0";
    assert Decimal.IntText(10) == "10" && Decimal.IntText(2) == "2";
  }

  /** What can happen to the table: a selector or the table widget reports a change,
      the effect begins a fetch, or a fetch settles. */
  datatype Event =
    | CurrencySelected(currency: Currency)
    | OrderSelected(order: Order)
    | TableChanged(update: Pagination)
    | FetchBegun
    | FetchSettled(response: Response<seq<Coin>>)

  function Step(s: TableState, e: Event): TableState {
    match e
    case CurrencySelected(c) => s.(currency := c)
    case OrderSelected(o) => s.(order := o)
    case TableChanged(u) => s.(pagination := Merge(s.pagination, u))
    case FetchBegun => s.(loading := true)
    case FetchSettled(r) => s.(data := Outcome(r, []), loading := false)
  }

  /** The state after the events `es`, oldest first. */
  function Run(s: TableState, es: seq<Event>): TableState
    decreases |es|
  {
    if |es| == 0 then s else Step(Run(s, es[..|es| - 1]), es[|es| - 1])
  }

  /** The transition of each event, restated from `Step` as the frame it keeps: each
      handler replaces only its own field; beginning a fetch only raises the loading
      flag; settling replaces the rows wholesale and lowers it. */
  lemma StepFrame(s: TableState, e: Event)
    ensures e.CurrencySelected? ==> Step(s, e) == s.(currency := e.currency)
    ensures e.OrderSelected? ==> Step(s, e) == s.(order := e.order)
    ensures e.TableChanged? ==> Step(s, e) == s.(pagination := Merge(s.pagination, e.update))
    ensures e.FetchBegun? ==> Step(s, e) == s.(loading := true)
    ensures e.FetchSettled? && e.response.Ok? ==> Step(s, e) == s.(data := e.response.payload, loading := false)
    ensures e.FetchSettled? && e.response.Err? ==> Step(s, e) == s.(data := [], loading := false)
  {
  }

  /** Event `i` is the last fetch to settle in `es`. */
  predicate LastSettled(es: seq<Event>, i: int) {
    0 <= i < |es| && es[i].FetchSettled? && forall j :: i < j < |es| ==> !es[j].FetchSettled?
  }

  predicate IsLifecycle(e: Event) {
    e.FetchBegun? || e.FetchSettled?
  }

  /** Event `i` is the last fetch to begin or settle in `es`. */
  predicate LastLifecycle(es: seq<Event>, i: int) {
    0 <= i < |es| && IsLifecycle(es[i]) && forall j :: i < j < |es| ==> !IsLifecycle(es[j])
  }

  /** Event `i` is the last currency selection in `es`. */
  predicate LastCurrency(es: seq<Event>, i: int) {
    0 <= i < |es| && es[i].CurrencySelected? && forall j :: i < j < |es| ==> !es[j].CurrencySelected?
  }

  /** Event `i` is the last order selection in `es`. */
  predicate LastOrder(es: seq<Event>, i: int) {
    0 <= i < |es| && es[i].OrderSelected? && forall j :: i < j < |es| ==> !es[j].OrderSelected?
  }

  /** Whether event `e` is a table change that supplies field `f`. */
  predicate Supplies(e: Event, f: PageField) {
    e.TableChanged? && Field(e.update, f).Present?
  }

  /** No table change in `es` supplies field `f`. */
  predicate NoneSupplying(es: seq<Event>, f: PageField) {
    forall i :: 0 <= i < |es| ==> !Supplies(es[i], f)
  }

  /** Event `i` is the last table change in `es` that supplies field `f`. */
  predicate LastSupplying(es: seq<Event>, i: int, f: PageField) {
    0 <= i < |es| && Supplies(es[i], f) && forall j :: i < j < |es| ==> !Supplies(es[j], f)
  }

  /** Before any fetch settles, the rows are those of the starting state. */
  lemma {:induction false} RunDataKept(s: TableState, es: seq<Event>)
    requires forall i :: 0 <= i < |es| ==> !es[i].FetchSettled?
    ensures Run(s, es).data == s.data
    decreases |es|
  {
    if |es| > 0 {
      var init, last := es[..|es| - 1], es[|es| - 1];
      assert Run(s, es).data == Step(Run(s, init), last).data;
      assert !es[|es| - 1].FetchSettled?;
      assert forall i :: 0 <= i < |init| ==> init[i] == es[i];
      RunDataKept(s, init);
    }
  }

  /** The rows shown are those of the LAST fetch to settle, whichever fetch it was and
      whatever was selected since it began; an empty list if it failed. */
  lemma {:induction false} RunData(s: TableState, es: seq<Event>, i: int)
    requires LastSettled(es, i)
    ensures Run(s, es).data == Outcome(es[i].response, [])
    decreases |es|
  {
    var init, last := es[..|es| - 1], es[|es| - 1];
    assert Run(s, es).data == Step(Run(s, init), last).data;
    if i < |es| - 1 {
      assert LastSettled(init, i) by {
        forall j | i < j < |init| ensures !init[j].FetchSettled? { assert init[j] == es[j]; }
      }
      RunData(s, init, i);
    }
  }

  /** Without any fetch beginning or settling, the loading flag keeps its value. */
  lemma {:induction false} RunLoadingKept(s: TableState, es: seq<Event>)
    requires forall i :: 0 <= i < |es| ==> !IsLifecycle(es[i])
    ensures Run(s, es).loading == s.loading
    decreases |es|
  {
    if |es| > 0 {
      var init, last := es[..|es| - 1], es[|es| - 1];
      assert Run(s, es).loading == Step(Run(s, init), last).loading;
      assert !IsLifecycle(es[|es| - 1]);
      assert forall i :: 0 <= i < |init| ==> init[i] == es[i];
      RunLoadingKept(s, init);
    }
  }

  /** The loading flag is raised by the last fetch begun and lowered by the first
      settlement after it, so a fetch that settles while a later one is still in flight
      already clears it. */
  lemma {:induction false} RunLoading(s: TableState, es: seq<Event>, i: int)
    requires LastLifecycle(es, i)
    ensures Run(s, es).loading == es[i].FetchBegun?
    decreases |es|
  {
    var init, last := es[..|es| - 1], es[|es| - 1];
    assert Run(s, es).loading == Step(Run(s, init), last).loading;
    if i < |es| - 1 {
      assert LastLifecycle(init, i) by {
        forall j | i < j < |init| ensures !IsLifecycle(init[j]) { assert init[j] == es[j]; }
      }
      RunLoading(s, init, i);
    }
  }

  /** Without a currency selection, the currency keeps its value. */
  lemma {:induction false} RunCurrencyKept(s: TableState, es: seq<Event>)
    requires forall i :: 0 <= i < |es| ==> !es[i].CurrencySelected?
    ensures Run(s, es).currency == s.currency
    decreases |es|
  {
    if |es| > 0 {
      var init, last := es[..|es| - 1], es[|es| - 1];
      assert Run(s, es).currency == Step(Run(s, init), last).currency;
      assert !es[|es| - 1].CurrencySelected?;
      assert forall i :: 0 <= i < |init| ==> init[i] == es[i];
      RunCurrencyKept(s, init);
    }
  }

  /** The currency is the last one selected; nothing else changes it. */
  lemma {:induction false} RunCurrency(s: TableState, es: seq<Event>, i: int)
    requires LastCurrency(es, i)
    ensures Run(s, es).currency == es[i].currency
    decreases |es|
  {
    var init, last := es[..|es| - 1], es[|es| - 1];
    assert Run(s, es).currency == Step(Run(s, init), last).currency;
    if i < |es| - 1 {
      assert LastCurrency(init, i) by {
        forall j | i < j < |init| ensures !init[j].CurrencySelected? { assert init[j] == es[j]; }
      }
      RunCurrency(s, init, i);
    }
  }

  /** Without an order selection, the order keeps its value. */
  lemma {:induction false} RunOrderKept(s: TableState, es: seq<Event>)
    requires forall i :: 0 <= i < |es| ==> !es[i].OrderSelected?
    ensures Run(s, es).order == s.order
    decreases |es|
  {
    if |es| > 0 {
      var init, last := es[..|es| - 1], es[|es| - 1];
      assert Run(s, es).order == Step(Run(s, init), last).order;
      assert !es[|es| - 1].OrderSelected?;
      assert forall i :: 0 <= i < |init| ==> init[i] == es[i];
      RunOrderKept(s, init);
    }
  }

  /** The order is the last one selected; nothing else changes it. */
  lemma {:induction false} RunOrder(s: TableState, es: seq<Event>, i: int)
    requires LastOrder(es, i)
    ensures Run(s, es).order == es[i].order
    decreases |es|
  {
    var init, last := es[..|es| - 1], es[|es| - 1];
    assert Run(s, es).order == Step(Run(s, init), last).order;
    if i < |es| - 1 {
      assert LastOrder(init, i) by {
        forall j | i < j < |init| ensures !init[j].OrderSelected? { assert init[j] == es[j]; }
      }
      RunOrder(s, init, i);
    }
  }

  /** One step changes a pagination field only when it is a table change supplying it. */
  lemma StepField(t: TableState, e: Event, f: PageField)
    ensures Field(Step(t, e).pagination, f) == if Supplies(e, f) then Field(e.update, f) else Field(t.pagination, f)
  {
    if e.TableChanged? {
      MergeFields(t.pagination, e.update, f);
    }
  }

  /** A pagination field that no table change supplies keeps its starting value. */
  lemma {:induction false} RunPaginationKept(s: TableState, es: seq<Event>, f: PageField)
    requires NoneSupplying(es, f)
    ensures Field(Run(s, es).pagination, f) == Field(s.pagination, f)
    decreases |es|
  {
    if |es| > 0 {
      var init, last := es[..|es| - 1], es[|es| - 1];
      assert Run(s, es).pagination == Step(Run(s, init), last).pagination;
      assert !Supplies(es[|es| - 1], f);
      assert NoneSupplying(init, f) by {
        forall i | 0 <= i < |init| ensures !Supplies(init[i], f) { assert init[i] == es[i]; }
      }
      RunPaginationKept(s, init, f);
      StepField(Run(s, init), last, f);
    }
  }

  /** Each pagination field holds the value of the last table change that supplied it. */
  lemma {:induction false} RunPagination(s: TableState, es: seq<Event>, f: PageField, i: int)
    requires LastSupplying(es, i, f)
    ensures Field(Run(s, es).pagination, f) == Field(es[i].update, f)
    decreases |es|
  {
    var init, last := es[..|es| - 1], es[|es| - 1];
    assert Run(s, es).pagination == Step(Run(s, init), last).pagination;
    StepField(Run(s, init), last, f);
    if i < |es| - 1 {
      assert LastSupplying(init, i, f) by {
        forall j | i < j < |init| ensures !Supplies(init[j], f) { assert init[j] == es[j]; }
      }
      RunPagination(s, init, f, i);
    }
  }

  /** No stale-result suppression: a fetch begun for USD that settles after a later EUR
      fetch overwrites the EUR rows, and the loading flag is down although the table now
      shows USD rows under the EUR selection. */
  lemma LateResultOverwrites(s: TableState, usdRows: seq<Coin>, eurRows: seq<Coin>)
    requires s.currency == USD
    ensures var es := [FetchBegun, CurrencySelected(EUR), FetchBegun,
                       FetchSettled(Ok(eurRows)), FetchSettled(Ok(usdRows))];
      Run(s, es).data == usdRows && Run(s, es).currency == EUR && !Run(s, es).loading
  {
    var es := [FetchBegun, CurrencySelected(EUR), FetchBegun,
               FetchSettled(Ok(eurRows)), FetchSettled(Ok(usdRows))];
    assert LastSettled(es, 4) && LastCurrency(es, 1) && LastLifecycle(es, 4);
    RunData(s, es, 4);
    RunCurrency(s, es, 1);
    RunLoading(s, es, 4);
  }

  // ---------------------------------------------------------------------------
  // The component

  /** The App component's state, updated in place by its handlers and its fetch effect. */
  class Controller {
    var data: seq<Coin>
    var currency: Currency
    var order: Order
    var pagination: Pagination
    var loading: bool

    function State(): TableState
      reads this
    {
      TableState(data, currency, order, pagination, loading)
    }

    constructor ()
      ensures State() == Initial
    {
      data := [];
      currency := USD;
      order := MarketCapDesc;
      pagination := InitialPagination;
      loading := true;
    }

    method HandleCurrencyChange(value: Currency)
      modifies this
      ensures State() == Step(old(State()), CurrencySelected(value))
    {
      currency := value;
    }

    method HandleOrderChange(value: Order)
      modifies this
      ensures State() == Step(old(State()), OrderSelected(value))
    {
      order := value;
    }

    method HandleTableChange(update: Pagination)
      modifies this
      ensures State() == Step(old(State()), TableChanged(update))
    {
      pagination := Merge(pagination, update);
    }

    /** The effect: raise the loading flag and issue the request for the current filters. */
    method BeginFetch() returns (url: string)
      modifies this
      ensures url == MarketUrl(RequestOf(old(State())))
      ensures State() == Step(old(State()), FetchBegun)
    {
      loading := true;
      var page := OrDefault(pagination.current, 1);
      var rows := OrDefault(pagination.pageSize, 10);
      url := MarketUrl(MarketRequest(page, rows, currency, order));
    }

    /** A fetch succeeded: its rows replace the table's, then loading ends. */
    method ResolveOk(rows: seq<Coin>)
      modifies this
      ensures State() == Step(old(State()), FetchSettled(Ok(rows)))
    {
      data := rows;
      loading := false;
    }

    /** A fetch failed: the table is emptied, then loading ends. */
    method ResolveErr()
      modifies this
      ensures State() == Step(old(State()), FetchSettled(Err))
    {
      data := [];
      loading := false;
    }
  }
}
