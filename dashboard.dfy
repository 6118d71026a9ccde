/** The state of the `App` component and the runs of `fetchSpreadsheetData` that
    update it: the product list, the loading flag, the error message and the time
    of the last successful parse. The parser and the clock are parameters. */
module Dashboard {
  import opened Wrappers
  import opened Products
  import opened Rows
  import opened Fetching
  import opened View

  const EmptyMessage: string := "Using demo data - please check spreadsheet access"
  const ParseFailedMessage: string := "Using demo data - spreadsheet parsing failed"
  const FetchFailedMessage: string := "Using demo data - spreadsheet not accessible"

  /** What the CSV parser reports: the `complete` callback with its rows, or the
      `error` callback. */
  datatype ParseResult = Complete(rows: seq<seq<string>>) | ParseError

  /** How a run ends: parse completed with these rows, parse failed, or no response
      was usable (every fetch failed, or one threw). */
  datatype Outcome = Parsed(rows: seq<seq<string>>) | ParseFailed | FetchFailed

  /** The outcome of one run; the parser sees the CSV text only when a fetch was ok. */
  function RunOutcome(fetch: Endpoint -> Attempt, parse: string -> ParseResult): (o: Outcome)
    ensures o.FetchFailed? <==> forall e :: e in FetchChain(fetch).requested ==> !IsOk(fetch(e))
    ensures !o.FetchFailed? ==> IsOk(fetch(Direct)) || IsOk(fetch(CorsProxy)) || IsOk(fetch(AllOrigins))
    ensures o.Parsed? <==> FetchChain(fetch).text.Some? && parse(FetchChain(fetch).text.value).Complete?
    ensures o.Parsed? ==> o.rows == parse(FetchChain(fetch).text.value).rows
    ensures o.ParseFailed? <==> FetchChain(fetch).text.Some? && parse(FetchChain(fetch).text.value).ParseError?
  {
    match FetchChain(fetch).text
    case None => FetchFailed
    case Some(csvText) =>
      match parse(csvText)
      case Complete(rows) => Parsed(rows)
      case ParseError => ParseFailed
  }

  /** The state a run leaves behind: the products, the message, and whether the
      last-updated time is set. */
  datatype Settlement = Settlement(products: seq<Product>, error: Option<string>, stamped: bool)

  /** Live data is kept only when the rows yield at least one product; every other
      ending shows the six demo products with a message naming the stage that
      failed. Only a completed parse sets the last-updated time. */
  function Settle(o: Outcome): (s: Settlement)
    ensures |s.products| > 0
    ensures s.stamped <==> o.Parsed?
    ensures s.error.None? <==> o.Parsed? && MapRows(o.rows) != []
    ensures s.error.None? ==> s.products == MapRows(o.rows)
    ensures s.error.Some? ==> s.products == DemoData() && |s.products| == 6
    ensures s.error == Some(EmptyMessage) <==> o.Parsed? && MapRows(o.rows) == []
    ensures s.error == Some(ParseFailedMessage) <==> o.ParseFailed?
    ensures s.error == Some(FetchFailedMessage) <==> o.FetchFailed?
  {
    match o
    case Parsed(rows) =>
      var live := MapRows(rows);
      if |live| == 0 then Settlement(DemoData(), Some(EmptyMessage), true)
      else Settlement(live, None, true)
    case ParseFailed => Settlement(DemoData(), Some(ParseFailedMessage), false)
    case FetchFailed => Settlement(DemoData(), Some(FetchFailedMessage), false)
  }

  /** Once a run has settled the view is never the skeleton nor the empty state: the
      grid appears exactly when live rows yielded products, and otherwise the error
      card hides the demo products that were loaded. */
  lemma SettledView(o: Outcome)
    ensures var s := Settle(o);
      var mode := RenderModeOf(false, s.error, s.products);
      (mode.Grid? <==> o.Parsed? && MapRows(o.rows) != []) &&
      (mode.Grid? ==> mode.cards == MapRows(o.rows)) &&
      (!mode.Grid? ==> mode.ErrorCard? && mode.message == s.error.value)
  {
  }

  /** The live path end to end: an ok direct response whose text parses to rows that
      yield products requests no relay and settles on exactly those products, with no
      message and the time stamped. */
  lemma LiveDirectFetch(fetch: Endpoint -> Attempt, parse: string -> ParseResult, rows: seq<seq<string>>)
    requires IsOk(fetch(Direct)) && parse(fetch(Direct).body) == Complete(rows) && MapRows(rows) != []
    ensures FetchChain(fetch).requested == [Direct]
    ensures Settle(RunOutcome(fetch, parse)) == Settlement(MapRows(rows), None, true)
  {
  }

  /** All three requests answered but none ok: the demo list and the "not accessible"
      message, after all three endpoints were requested. */
  lemma AllRequestsFail(fetch: Endpoint -> Attempt, parse: string -> ParseResult)
    requires IsNotOk(fetch(Direct)) && IsNotOk(fetch(CorsProxy)) && IsNotOk(fetch(AllOrigins))
    ensures FetchChain(fetch).requested == [Direct, CorsProxy, AllOrigins]
    ensures Settle(RunOutcome(fetch, parse)) == Settlement(DemoData(), Some(FetchFailedMessage), false)
  {
  }

  /** A parse error gives the demo list with a message that differs from the fetch
      failure's. */
  lemma ParseErrorMessageDistinct(fetch: Endpoint -> Attempt, parse: string -> ParseResult)
    requires FetchChain(fetch).text.Some? && parse(FetchChain(fetch).text.value).ParseError?
    ensures Settle(RunOutcome(fetch, parse)).products == DemoData()
    ensures Settle(RunOutcome(fetch, parse)).error == Some(ParseFailedMessage)
    ensures ParseFailedMessage != FetchFailedMessage && ParseFailedMessage != EmptyMessage
  {
  }

  /** The observable state of the component. */
  class App {
    var products: seq<Product>
    var loading: bool
    var error: Option<string>
    var lastUpdated: Option<int>

    /** What every reachable state satisfies: a settled state has products to show, a
        message is never empty, and a state without message after loading has been
        stamped by a completed parse. */
    ghost predicate Valid()
      reads this
    {
      (!loading ==> products != []) &&
      (error.Some? ==> ErrorShown(error)) &&
      (!loading && error.None? ==> lastUpdated.Some?)
    }

    /** The view this state renders. */
    function Mode(): RenderMode
      reads this
    {
      RenderModeOf(loading, error, products)
    }

    /** The initial state: no products, loading, no message, never updated. */
    constructor ()
      ensures Valid()
      ensures products == [] && loading && error == None && lastUpdated == None
      ensures Mode() == Skeleton
    {
      products := [];
      loading := true;
      error := None;
      lastUpdated := None;
    }

    /** The start of a run: loading, message cleared; products are kept. */
    method BeginRefresh()
      requires Valid()
      modifies this
      ensures Valid()
      ensures loading && error == None
      ensures products == old(products) && lastUpdated == old(lastUpdated)
    {
      loading := true;
      error := None;
    }

    /** The parser's `complete` callback: map the rows, fall back to the demo list
        when none survive, stamp the time and stop loading. When live products are
        kept the message is left as it was. */
    method CompleteParse(rows: seq<seq<string>>, now: int)
      requires Valid()
      modifies this
      ensures Valid()
      ensures MapRows(rows) == [] ==> products == DemoData() && error == Some(EmptyMessage)
      ensures MapRows(rows) != [] ==> products == MapRows(rows) && error == old(error)
      ensures lastUpdated == Some(now) && !loading
    {
      var productData := CollectProducts(rows);
      if |productData| == 0 {
        products := DemoData();
        error := Some(EmptyMessage);
      } else {
        products := productData;
      }
      lastUpdated := Some(now);
      loading := false;
    }

    /** The parser's `error` callback. */
    method FailParse()
      requires Valid()
      modifies this
      ensures Valid()
      ensures products == DemoData() && error == Some(ParseFailedMessage) && !loading
      ensures lastUpdated == old(lastUpdated)
    {
      products := DemoData();
      error := Some(ParseFailedMessage);
      loading := false;
    }

    /** The catch block: no usable response. */
    method FailFetch()
      requires Valid()
      modifies this
      ensures Valid()
      ensures products == DemoData() && error == Some(FetchFailedMessage) && !loading
      ensures lastUpdated == old(lastUpdated)
    {
      products := DemoData();
      error := Some(FetchFailedMessage);
      loading := false;
    }

    /** One complete run of `fetchSpreadsheetData`, from the start to the settled
        state; returns the endpoints that were requested. */
    method Refresh(fetch: Endpoint -> Attempt, parse: string -> ParseResult, now: int)
      returns (requested: seq<Endpoint>)
      requires Valid()
      modifies this
      ensures Valid()
      ensures requested == FetchChain(fetch).requested
      ensures var s := Settle(RunOutcome(fetch, parse));
        products == s.products && error == s.error && !loading &&
        lastUpdated == (if s.stamped then Some(now) else old(lastUpdated))
    {
      BeginRefresh();
      var text;
      text, requested := FetchCsv(fetch);
      if text.None? {
        FailFetch();
        return;
      }
      match parse(text.value)
      case Complete(rows) => CompleteParse(rows, now);
      case ParseError => FailParse();
    }

    /** A settled state never renders the empty state, and the grid always comes with
        a last-updated time. */
    lemma SettledNeverEmptyState()
      requires Valid() && !loading
      ensures Mode().ErrorCard? || Mode().Grid?
      ensures Mode().Grid? ==> lastUpdated.Some?
    {
    }
  }
}
