/**
 * backend/handlers/item_handler.go: the HTTP handlers over the `items`
 * table. The table is a sequence of the nine columns the handlers INSERT
 * (the store fills in `id` and `created_at` itself). The upstream feed,
 * `http.NewRequest`, `url.Parse`, `url.QueryEscape` and the store's
 * per-statement outcomes are parameters: the handlers see only what they
 * return.
 */
module Handlers {
  import opened Wrappers
  import opened Models

  const StatusOK: int := 200
  const StatusCreated: int := 201
  const StatusBadRequest: int := 400
  const StatusNotFound: int := 404
  const StatusInternalServerError: int := 500
  const StatusBadGateway: int := 502

  /** The feed every synchronisation starts from. */
  const BaseURL: string := "https://api.karenai.click/swechallenge/list"

  const SyncCompleted: string := "Sincronización completada"

  /** The nine columns an `INSERT INTO items (...)` writes. */
  datatype Row = Row(
    ticker: string,
    targetFrom: real,
    targetTo: real,
    company: string,
    action: string,
    brokerage: string,
    ratingFrom: string,
    ratingTo: string,
    time: Timestamp)

  function Columns(it: Item): Row {
    Row(it.ticker, it.targetFrom, it.targetTo, it.company, it.action, it.brokerage,
        it.ratingFrom, it.ratingTo, it.time)
  }

  /** Why a request failed; the HTTP status travels beside it in `Response`. */
  datatype Cause =
    | MissingApiKey                  // "SWE_API_KEY no definida en variables de entorno"
    | DeleteFailed(reason: string)   // "error borrando registros: <reason>"
    | Db(reason: string)             // a query or insert error, as the driver words it
    | RequestFailed(reason: string)  // http.NewRequest refused the URL
    | Transport(reason: string)      // client.Do failed
    | Undecodable(problem: DecodeError)
    | Unscannable(err: MoneyError)   // a money column Scan refused
    | ItemNotFound                   // "Item no encontrado"

  /** A JSON body `encoding/json` could not bind: bad syntax or a money field `UnmarshalJSON` refused. */
  datatype DecodeError = Syntax(reason: string) | BadMoney(err: MoneyError)

  datatype Payload =
    | ErrorBody(cause: Cause)
    | Message(text: string)
    | OneItem(item: Item)
    | ItemList(items: Option<seq<Item>>)  // None is the JSON `null` of a nil slice

  datatype Response = Response(status: int, body: Payload)

  // ---------------------------------------------------------------------
  // The collaborators of UpdateItems
  // ---------------------------------------------------------------------

  /** The parts of a `url.URL` the next-page rule looks at. */
  datatype Url = Url(scheme: string, host: string)

  /** A page body as `json.Decoder` reads it, before the money fields are decoded. */
  datatype Body =
    | PageBody(items: seq<WireItem>, nextPage: Option<string>)
    | Garbled(reason: string)

  /** What `client.Do` returns: a transport error, or a response of any status with its body. */
  datatype Reply =
    | TransportError(reason: string)
    | Reply(status: int, body: Body)

  datatype Upstream = Upstream(
    newRequest: string -> Option<string>,  // the error http.NewRequest returns for a URL, if any
    fetch: string -> Reply,                // client.Do of a GET on a URL
    parseUrl: string -> Option<Url>,       // url.Parse
    queryEscape: string -> string)         // url.QueryEscape

  datatype Database = Database(
    deleteError: Option<string>,  // the error of DELETE FROM items, if any
    insertOk: Row -> bool)        // whether the INSERT of a row succeeds

  // ---------------------------------------------------------------------
  // One iteration of the `for {}` loop, without the inserts
  // ---------------------------------------------------------------------

  /** `next_page` is nil or the empty string: the last page. */
  predicate IsLastPage(np: Option<string>) {
    np == None || np == Some("")
  }

  /** `url.Parse` accepts the token and finds both a scheme and a host. */
  predicate IsAbsolute(np: string, up: Upstream) {
    match up.parseUrl(np)
    case Some(u) => u.scheme != "" && u.host != ""
    case None => false
  }

  /** The URL after a page whose `next_page` is `np` (item_handler.go:196-204). */
  function NextURL(np: string, up: Upstream): string {
    if IsAbsolute(np, up) then np
    else BaseURL + "?" + "next_page=" + up.queryEscape(np)
  }

  /** Decoding every item of a page, in order; the first money field refused fails the page. */
  function DecodeItems(ws: seq<WireItem>, parse: FloatParser): Result<seq<Item>, MoneyError> {
    if ws == [] then Success([])
    else
      match DecodeItem(ws[0], parse)
      case Failure(e) => Failure(e)
      case Success(it) =>
        match DecodeItems(ws[1..], parse)
        case Failure(e) => Failure(e)
        case Success(rest) => Success([it] + rest)
  }

  /**
   * A page decodes exactly when each of its items does, and then item by
   * item; otherwise the error is that of the first item that does not decode.
   */
  lemma {:induction false} DecodeItemsSpec(ws: seq<WireItem>, parse: FloatParser)
    ensures var r := DecodeItems(ws, parse);
      && (r.Success? <==> forall i :: 0 <= i < |ws| ==> DecodeItem(ws[i], parse).Success?)
      && (r.Success? ==> |r.value| == |ws|)
      && (r.Success? ==> forall i :: 0 <= i < |ws| ==> DecodeItem(ws[i], parse) == Success(r.value[i]))
      && (r.Failure? ==> exists i :: 0 <= i < |ws| && DecodeItem(ws[i], parse) == Failure(r.error)
                                   && (forall j :: 0 <= j < i ==> DecodeItem(ws[j], parse).Success?))
  {
    if ws != [] {
      DecodeItemsSpec(ws[1..], parse);
      assert forall i :: 1 <= i < |ws| ==> ws[i] == ws[1..][i - 1];
      if DecodeItem(ws[0], parse).Success? && DecodeItems(ws[1..], parse).Failure? {
        var i :| 0 <= i < |ws| - 1 && DecodeItem(ws[1..][i], parse) == Failure(DecodeItems(ws[1..], parse).error)
                 && (forall j :: 0 <= j < i ==> DecodeItem(ws[1..][j], parse).Success?);
        assert ws[i + 1] == ws[1..][i];
        assert forall j :: 1 <= j < i + 1 ==> ws[j] == ws[1..][j - 1];
      }
    }
  }

  /** The result of fetching one URL. */
  datatype Step =
    | Rejected(reason: string)              // NewRequest failed: nothing was fetched
    | Failed(response: Response)            // fetched, then the transport or the decoding failed
    | Done(page: seq<Item>)                 // a last page
    | More(page: seq<Item>, next: string)   // a page and the URL of the next one

  /** What one request comes to before the next-page rule: not sent, or sent and answered with a page or an error response. */
  datatype Fetch =
    | NotSent(reason: string)
    | Sent(result: Result<(seq<Item>, Option<string>), Response>)

  /** Build the request, send it, decode the body whatever the status (item_handler.go:148-176). */
  function Request(url: string, up: Upstream, parse: FloatParser): Fetch {
    match up.newRequest(url)
    case Some(e) => NotSent(e)
    case None =>
      match up.fetch(url)
      case TransportError(e) => Sent(Failure(Response(StatusBadGateway, ErrorBody(Transport(e)))))
      case Reply(_, Garbled(e)) =>
        Sent(Failure(Response(StatusBadGateway, ErrorBody(Undecodable(Syntax(e))))))
      case Reply(_, PageBody(ws, np)) =>
        match DecodeItems(ws, parse)
        case Failure(e) => Sent(Failure(Response(StatusBadGateway, ErrorBody(Undecodable(BadMoney(e))))))
        case Success(page) => Sent(Success((page, np)))
  }

  function FetchStep(url: string, up: Upstream, parse: FloatParser): Step {
    match Request(url, up, parse)
    case NotSent(e) => Rejected(e)
    case Sent(Failure(resp)) => Failed(resp)
    case Sent(Success((page, np))) => if IsLastPage(np) then Done(page) else More(page, NextURL(np.value, up))
  }

  /** The records a step brings (none when it failed). */
  function StepPage(s: Step): seq<Item> {
    match s
    case Done(p) => p
    case More(p, _) => p
    case _ => []
  }

  // ---------------------------------------------------------------------
  // The inserts of one page (item_handler.go:179-189)
  // ---------------------------------------------------------------------

  /** The rows a page leaves in the table: each record's columns, in order, when its INSERT succeeds. */
  function Inserted(page: seq<Item>, ok: Row -> bool): seq<Row> {
    if page == [] then []
    else
      var last := Columns(page[|page| - 1]);
      Inserted(page[..|page| - 1], ok) + (if ok(last) then [last] else [])
  }

  /** Inserting a page in two parts is inserting it at once. */
  lemma {:induction false} InsertedAppend(a: seq<Item>, b: seq<Item>, ok: Row -> bool)
    ensures Inserted(a + b, ok) == Inserted(a, ok) + Inserted(b, ok)
    decreases |b|
  {
    if b == [] {
      assert a + b == a;
    } else {
      var b' := b[..|b| - 1];
      assert (a + b)[..|a + b| - 1] == a + b';
      InsertedAppend(a, b', ok);
    }
  }

  /**
   * Every record of a page is attempted: the ones whose INSERT succeeds are in
   * the table, and nothing else is.
   */
  lemma {:induction false} InsertedIsFilter(page: seq<Item>, ok: Row -> bool)
    ensures |Inserted(page, ok)| <= |page|
    ensures forall i :: 0 <= i < |page| && ok(Columns(page[i])) ==> Columns(page[i]) in Inserted(page, ok)
    ensures forall r :: r in Inserted(page, ok) ==> ok(r) && exists i :: 0 <= i < |page| && Columns(page[i]) == r
  {
    if page != [] {
      var p := page[..|page| - 1];
      InsertedIsFilter(p, ok);
      assert forall i :: 0 <= i < |p| ==> p[i] == page[i];
    }
  }

  /** When every INSERT succeeds, the page's rows are all there, in page order. */
  lemma {:induction false} InsertedAllOk(page: seq<Item>, ok: Row -> bool)
    requires forall i :: 0 <= i < |page| ==> ok(Columns(page[i]))
    ensures Inserted(page, ok) == seq(|page|, i requires 0 <= i < |page| => Columns(page[i]))
  {
    if page != [] {
      var p := page[..|page| - 1];
      InsertedAllOk(p, ok);
    }
  }

  // ---------------------------------------------------------------------
  // The whole synchronisation as a function
  // ---------------------------------------------------------------------

  /** What a run leaves behind: the table, the URLs fetched in order, and the answer. */
  datatype Outcome = Outcome(table: seq<Row>, fetched: seq<string>, response: Response)

  /**
   * The feed starting at `url` reaches a stop (a failure or a last page)
   * within `n` fetches. The source loops for ever on a feed that never stops;
   * the model covers the runs that end.
   */
  predicate EndsWithin(url: string, n: nat, up: Upstream, parse: FloatParser)
    decreases n
  {
    n > 0 &&
    var s := FetchStep(url, up, parse);
    s.More? ==> EndsWithin(s.next, n - 1, up, parse)
  }

  /** The pagination loop, from `url` on, with `table` as it stands. */
  function Paginate(url: string, table: seq<Row>, db: Database, up: Upstream, parse: FloatParser, n: nat): Outcome
    requires EndsWithin(url, n, up, parse)
    decreases n
  {
    match FetchStep(url, up, parse)
    case Rejected(e) => Outcome(table, [], Response(StatusInternalServerError, ErrorBody(RequestFailed(e))))
    case Failed(resp) => Outcome(table, [url], resp)
    case Done(page) => Outcome(table + Inserted(page, db.insertOk), [url], Response(StatusOK, Message(SyncCompleted)))
    case More(page, next) =>
      var o := Paginate(next, table + Inserted(page, db.insertOk), db, up, parse, n - 1);
      Outcome(o.table, [url] + o.fetched, o.response)
  }

  /** One unfolding of `Paginate`, by the outcome of the first fetch. */
  lemma PaginateUnfold(url: string, table: seq<Row>, db: Database, up: Upstream, parse: FloatParser, n: nat)
    requires EndsWithin(url, n, up, parse)
    ensures var o := Paginate(url, table, db, up, parse, n);
      match FetchStep(url, up, parse)
      case Rejected(e) => o == Outcome(table, [], Response(StatusInternalServerError, ErrorBody(RequestFailed(e))))
      case Failed(r) => o == Outcome(table, [url], r)
      case Done(page) => o == Outcome(table + Inserted(page, db.insertOk), [url], Response(StatusOK, Message(SyncCompleted)))
      case More(page, next) =>
        && n > 1
        && EndsWithin(next, n - 1, up, parse)
        && var rest := Paginate(next, table + Inserted(page, db.insertOk), db, up, parse, n - 1);
           o == Outcome(rest.table, [url] + rest.fetched, rest.response)
  {
  }

  /**
   * A pass of the loop that did what `FetchStep` says of `url` (taking the
   * table from `t0` to `t1` and the fetch log from `f0` to `f1`) either ends
   * the run from `url`, or leaves the rest of that run to the pass at `next`.
   */
  lemma AdvancePaginates(url: string, t0: seq<Row>, f0: seq<string>, t1: seq<Row>, f1: seq<string>,
                         done: Option<Response>, next: string, db: Database, up: Upstream, parse: FloatParser, n: nat)
    requires EndsWithin(url, n, up, parse)
    requires match FetchStep(url, up, parse)
      case Rejected(e) =>
        done == Some(Response(StatusInternalServerError, ErrorBody(RequestFailed(e)))) && t1 == t0 && f1 == f0
      case Failed(r) => done == Some(r) && t1 == t0 && f1 == f0 + [url]
      case Done(page) =>
        done == Some(Response(StatusOK, Message(SyncCompleted))) && t1 == t0 + Inserted(page, db.insertOk) && f1 == f0 + [url]
      case More(page, nx) =>
        done == None && next == nx && t1 == t0 + Inserted(page, db.insertOk) && f1 == f0 + [url]
    ensures var o := Paginate(url, t0, db, up, parse, n);
      && (done.Some? ==> t1 == o.table && f1 == f0 + o.fetched && done.value == o.response)
      && (done.None? ==>
            && n > 1 && EndsWithin(next, n - 1, up, parse)
            && var o' := Paginate(next, t1, db, up, parse, n - 1);
               o'.table == o.table && o'.response == o.response && f1 + o'.fetched == f0 + o.fetched)
  {
    PaginateUnfold(url, t0, db, up, parse, n);
    match FetchStep(url, up, parse)
    case Rejected(_) =>
    case Failed(_) =>
    case Done(_) =>
    case More(page, nx) =>
      var o' := Paginate(nx, t1, db, up, parse, n - 1);
      assert f1 + o'.fetched == f0 + ([url] + o'.fetched);
  }

  /** `UpdateItems`: key check, delete-all, then pagination from the base URL. */
  function Sync(table: seq<Row>, apiKey: string, db: Database, up: Upstream, parse: FloatParser, n: nat): Outcome
    requires apiKey != "" && db.deleteError.None? ==> EndsWithin(BaseURL, n, up, parse)
  {
    if apiKey == "" then
      Outcome(table, [], Response(StatusInternalServerError, ErrorBody(MissingApiKey)))
    else if db.deleteError.Some? then
      Outcome(table, [], Response(StatusInternalServerError, ErrorBody(DeleteFailed(db.deleteError.value))))
    else
      Paginate(BaseURL, [], db, up, parse, n)
  }

  /** What fetching each URL of the feed comes to. */
  function Steps(up: Upstream, parse: FloatParser): string -> Step {
    u => FetchStep(u, up, parse)
  }

  /** The rows the pages fetched from `urls` bring, concatenated in fetch order. */
  function Harvest(urls: seq<string>, db: Database, step: string -> Step): seq<Row> {
    if urls == [] then []
    else Inserted(StepPage(step(urls[0])), db.insertOk) + Harvest(urls[1..], db, step)
  }

  // ---------------------------------------------------------------------
  // Properties of a synchronisation run
  // ---------------------------------------------------------------------

  /**
   * The shape of a run `o` of the pagination loop from `url` over `table`,
   * where fetching a URL `u` comes to `step(u)`: the first fetch is `url`;
   * each fetch after it is the next URL of the page before, which was not a
   * last page; the table gains exactly the inserted rows of the fetched
   * pages, in fetch order; the run reports success exactly when its last
   * fetch was a last page; and it stops only where `Stopped` allows, with
   * that stop's answer.
   */
  predicate IsTrace(url: string, table: seq<Row>, db: Database, step: string -> Step, o: Outcome) {
    && (o.fetched == [] <==> step(url).Rejected?)
    && (o.fetched == [] ==> o.response == Response(StatusInternalServerError, ErrorBody(RequestFailed(step(url).reason))))
    && (o.fetched != [] ==> o.fetched[0] == url && Stopped(step, o.fetched[|o.fetched| - 1], o.response))
    && Chained(o.fetched, step)
    && o.table == table + Harvest(o.fetched, db, step)
    && (o.response.status == StatusOK <==> o.fetched != [] && step(o.fetched[|o.fetched| - 1]).Done?)
  }

  /**
   * A run whose last fetch is `last` ends there with `resp` only when
   * fetching `last` failed (answering that failure), or `last` was a last
   * page (answering 200), or `last` had a next page whose request
   * `http.NewRequest` refused (answering 500). A fetched URL was sent, so it
   * is never a refused request.
   */
  predicate Stopped(step: string -> Step, last: string, resp: Response) {
    match step(last)
    case Rejected(_) => false
    case Failed(r) => resp == r
    case Done(_) => resp == Response(StatusOK, Message(SyncCompleted))
    case More(_, nx) =>
      step(nx).Rejected? && resp == Response(StatusInternalServerError, ErrorBody(RequestFailed(step(nx).reason)))
  }

  /** Each fetch after the first is the next URL of the page before, which was not a last page. */
  predicate Chained(urls: seq<string>, step: string -> Step) {
    forall i {:trigger step(urls[i])} :: 0 <= i < |urls| - 1 ==> step(urls[i]).More? && step(urls[i]).next == urls[i + 1]
  }

  /** Every run of the pagination loop has the shape `IsTrace` describes. */
  lemma {:induction false} PaginateTrace(url: string, table: seq<Row>, db: Database, up: Upstream, parse: FloatParser, n: nat)
    requires EndsWithin(url, n, up, parse)
    ensures IsTrace(url, table, db, Steps(up, parse), Paginate(url, table, db, up, parse, n))
    decreases n
  {
    var step := Steps(up, parse);
    PaginateUnfold(url, table, db, up, parse, n);
    assert step(url) == FetchStep(url, up, parse);
    match FetchStep(url, up, parse)
    case Rejected(_) =>
    case Failed(resp) =>
      assert resp.status != StatusOK;
      HarvestOne(url, db, step);
    case Done(page) =>
      HarvestOne(url, db, step);
    case More(page, next) =>
      var t' := table + Inserted(page, db.insertOk);
      PaginateTrace(next, t', db, up, parse, n - 1);
      TraceExtend(url, page, next, table, db, step, Paginate(next, t', db, up, parse, n - 1));
  }

  /** The harvest of a single fetch is the rows of its page. */
  lemma {:induction false} HarvestOne(url: string, db: Database, step: string -> Step)
    ensures Harvest([url], db, step) == Inserted(StepPage(step(url)), db.insertOk)
  {
    assert [url][1..] == [];
  }

  /** A page that is not the last, followed by a run from its next URL, is a run from the page's URL. */
  lemma {:induction false} TraceExtend(url: string, page: seq<Item>, next: string, table: seq<Row>, db: Database,
                                       step: string -> Step, o': Outcome)
    requires step(url) == More(page, next)
    requires IsTrace(next, table + Inserted(page, db.insertOk), db, step, o')
    ensures IsTrace(url, table, db, step, Outcome(o'.table, [url] + o'.fetched, o'.response))
  {
    var f := [url] + o'.fetched;
    HarvestCons(url, o'.fetched, db, step);
    ChainedCons(url, o'.fetched, step);
    if o'.fetched != [] {
      assert f[|f| - 1] == o'.fetched[|o'.fetched| - 1];
    } else {
      assert f[|f| - 1] == url;
    }
  }

  /** Harvesting one more fetch in front adds its page's rows in front. */
  lemma {:induction false} HarvestCons(url: string, urls: seq<string>, db: Database, step: string -> Step)
    ensures Harvest([url] + urls, db, step) == Inserted(StepPage(step(url)), db.insertOk) + Harvest(urls, db, step)
  {
    assert ([url] + urls)[1..] == urls;
  }

  /** A chain stays a chain when a page whose next URL is its first fetch is put in front. */
  lemma ChainedCons(url: string, urls: seq<string>, step: string -> Step)
    requires step(url).More?
    requires urls != [] ==> urls[0] == step(url).next
    requires Chained(urls, step)
    ensures Chained([url] + urls, step)
  {
    var f := [url] + urls;
    forall i | 0 <= i < |f| - 1
      ensures step(f[i]).More? && step(f[i]).next == f[i + 1]
    {
      if i > 0 {
        assert f[i] == urls[i - 1] && f[i + 1] == urls[i];
      }
    }
  }

  /** A missing API key answers 500 before the table or the feed is touched. */
  lemma MissingKeyTouchesNothing(table: seq<Row>, db: Database, up: Upstream, parse: FloatParser, n: nat)
    ensures Sync(table, "", db, up, parse, n) ==
      Outcome(table, [], Response(StatusInternalServerError, ErrorBody(MissingApiKey)))
  {
  }

  /** A failed delete-all answers 500; no page is fetched and the table is as it was. */
  lemma DeleteFailureFetchesNothing(table: seq<Row>, apiKey: string, db: Database, up: Upstream, parse: FloatParser, n: nat)
    requires apiKey != "" && db.deleteError.Some?
    ensures var o := Sync(table, apiKey, db, up, parse, n);
      o.table == table && o.fetched == [] && o.response.status == StatusInternalServerError
  {
  }

  /**
   * Once the table is cleared: the first fetch is the base URL; every later
   * fetch is the next URL of the page before it, which was not a last page
   * (`Chained`); a fetch or decode
   * failure is the last fetch, and the rows of the pages before it stay; and
   * the table holds, in fetch order, the rows of the fetched pages whose
   * INSERT succeeded.
   */
  lemma {:induction false} SyncTrace(table: seq<Row>, apiKey: string, db: Database, up: Upstream, parse: FloatParser, n: nat)
    requires apiKey != "" && db.deleteError.None?
    requires EndsWithin(BaseURL, n, up, parse)
    ensures var o := Sync(table, apiKey, db, up, parse, n);
      && (FetchStep(BaseURL, up, parse).Rejected? ==> o.fetched == [] && o.table == [])
      && (!FetchStep(BaseURL, up, parse).Rejected? ==> o.fetched != [] && o.fetched[0] == BaseURL)
      && Chained(o.fetched, Steps(up, parse))
      && (forall i :: 0 <= i < |o.fetched| && FetchStep(o.fetched[i], up, parse).Failed? ==> i == |o.fetched| - 1)
      && o.table == Harvest(o.fetched, db, Steps(up, parse))
      && (o.response.status == StatusOK <==> o.fetched != [] && FetchStep(o.fetched[|o.fetched| - 1], up, parse).Done?)
      && (o.fetched == [] ==>
            o.response == Response(StatusInternalServerError, ErrorBody(RequestFailed(FetchStep(BaseURL, up, parse).reason))))
      && (o.fetched != [] ==>
            && Stopped(Steps(up, parse), o.fetched[|o.fetched| - 1], o.response)
            && (FetchStep(o.fetched[|o.fetched| - 1], up, parse).Failed? ==> o.response.status == StatusBadGateway))
  {
    var step := Steps(up, parse);
    PaginateTrace(BaseURL, [], db, up, parse, n);
    var o := Sync(table, apiKey, db, up, parse, n);
    assert step(BaseURL) == FetchStep(BaseURL, up, parse);
    forall i | 0 <= i < |o.fetched| && FetchStep(o.fetched[i], up, parse).Failed?
      ensures i == |o.fetched| - 1
    {
      assert step(o.fetched[i]) == FetchStep(o.fetched[i], up, parse);
    }
    if o.fetched != [] {
      var last := o.fetched[|o.fetched| - 1];
      assert step(last) == FetchStep(last, up, parse);
      FailuresAreBadGateway(last, up, parse);
    }
  }

  /**
   * Every request that was sent and failed answers 502: a transport error
   * (item_handler.go:158) or a body that does not decode (item_handler.go:173).
   */
  lemma FailuresAreBadGateway(url: string, up: Upstream, parse: FloatParser)
    ensures Request(url, up, parse).Sent? && Request(url, up, parse).result.Failure? ==>
      Request(url, up, parse).result.error.status == StatusBadGateway
    ensures FetchStep(url, up, parse).Failed? ==> FetchStep(url, up, parse).response.status == StatusBadGateway
  {
  }

  /**
   * A page's step continues exactly when its `next_page` is neither nil nor
   * empty; the next URL is the token itself when it is absolute, and
   * otherwise the base URL (never the URL just fetched) with the token as
   * the `next_page` query parameter.
   */
  lemma {:induction false} NextPageRule(url: string, items: seq<WireItem>, np: Option<string>, status: int, up: Upstream, parse: FloatParser)
    requires up.newRequest(url).None? && up.fetch(url) == Reply(status, PageBody(items, np))
    requires DecodeItems(items, parse).Success?
    ensures FetchStep(url, up, parse).Done? <==> IsLastPage(np)
    ensures FetchStep(url, up, parse).More? <==> !IsLastPage(np)
    ensures !IsLastPage(np) && IsAbsolute(np.value, up) ==> FetchStep(url, up, parse).next == np.value
    ensures !IsLastPage(np) && !IsAbsolute(np.value, up) ==>
      FetchStep(url, up, parse).next == BaseURL + "?next_page=" + up.queryEscape(np.value)
  {
  }

  /** `up` with every response status replaced: the bodies are kept. */
  function Restatus(up: Upstream, status: string -> int): Upstream {
    up.(fetch := u => match up.fetch(u)
                      case TransportError(e) => TransportError(e)
                      case Reply(_, b) => Reply(status(u), b))
  }

  /** The upstream status is never looked at: any other statuses give the same run. */
  lemma {:induction false} StatusIgnored(url: string, table: seq<Row>, db: Database, up: Upstream, parse: FloatParser, status: string -> int, n: nat)
    requires EndsWithin(url, n, up, parse)
    ensures EndsWithin(url, n, Restatus(up, status), parse)
    ensures Paginate(url, table, db, Restatus(up, status), parse, n) == Paginate(url, table, db, up, parse, n)
    decreases n
  {
    var up' := Restatus(up, status);
    assert FetchStep(url, up', parse) == FetchStep(url, up, parse) by {
      assert up'.newRequest == up.newRequest && up'.parseUrl == up.parseUrl && up'.queryEscape == up.queryEscape;
    }
    var s := FetchStep(url, up, parse);
    if s.More? {
      StatusIgnored(s.next, table + Inserted(s.page, db.insertOk), db, up, parse, status, n - 1);
    }
  }

  /**
   * A failed INSERT never changes which pages are fetched or what is
   * answered: only the table's content depends on which inserts succeed.
   */
  lemma {:induction false} InsertFailuresDoNotStopPaging(url: string, t1: seq<Row>, t2: seq<Row>, db1: Database, db2: Database, up: Upstream, parse: FloatParser, n: nat)
    requires EndsWithin(url, n, up, parse)
    ensures Paginate(url, t1, db1, up, parse, n).fetched == Paginate(url, t2, db2, up, parse, n).fetched
    ensures Paginate(url, t1, db1, up, parse, n).response == Paginate(url, t2, db2, up, parse, n).response
    decreases n
  {
    var s := FetchStep(url, up, parse);
    if s.More? {
      InsertFailuresDoNotStopPaging(s.next, t1 + Inserted(s.page, db1.insertOk), t2 + Inserted(s.page, db2.insertOk), db1, db2, up, parse, n - 1);
    }
  }

  /** A larger bound gives the same run: the bound only proves termination. */
  lemma {:induction false} BoundIrrelevant(url: string, table: seq<Row>, db: Database, up: Upstream, parse: FloatParser, n: nat, m: nat)
    requires EndsWithin(url, n, up, parse) && n <= m
    ensures EndsWithin(url, m, up, parse)
    ensures Paginate(url, table, db, up, parse, m) == Paginate(url, table, db, up, parse, n)
    decreases n
  {
    var s := FetchStep(url, up, parse);
    if s.More? {
      BoundIrrelevant(s.next, table + Inserted(s.page, db.insertOk), db, up, parse, n - 1, m - 1);
    }
  }

  // ---------------------------------------------------------------------
  // Reading rows back (GetItem, GetItems)
  // ---------------------------------------------------------------------

  /** A row as the driver returns it, before `rows.Scan` converts the money columns. */
  datatype DbRow = DbRow(
    id: Uuid,
    ticker: string,
    targetFrom: DbValue,
    targetTo: DbValue,
    company: string,
    action: string,
    brokerage: string,
    ratingFrom: string,
    ratingTo: string,
    time: Timestamp,
    createdAt: Timestamp)

  /**
   * `Scan` into a `models.Item`: the first money column `Money.Scan` refuses
   * (`target_from` before `target_to`, the SELECT's order) fails the row;
   * otherwise every other column is carried over as it is and each amount
   * is what `Money.Scan` reads.
   */
  function ScanItem(r: DbRow, parse: FloatParser): (res: Result<Item, MoneyError>)
    ensures res.Success? <==> DecodeStorage(r.targetFrom, parse).Success? && DecodeStorage(r.targetTo, parse).Success?
    ensures res.Failure? ==>
      res.error == (if DecodeStorage(r.targetFrom, parse).Failure? then DecodeStorage(r.targetFrom, parse).error
                    else DecodeStorage(r.targetTo, parse).error)
    ensures res.Success? ==>
      && res.value.id == r.id && res.value.ticker == r.ticker && res.value.company == r.company
      && res.value.action == r.action && res.value.brokerage == r.brokerage
      && res.value.ratingFrom == r.ratingFrom && res.value.ratingTo == r.ratingTo
      && res.value.time == r.time && res.value.createdAt == r.createdAt
      && res.value.targetFrom == DecodeStorage(r.targetFrom, parse).value
      && res.value.targetTo == DecodeStorage(r.targetTo, parse).value
  {
    match DecodeStorage(r.targetFrom, parse)
    case Failure(e) => Failure(e)
    case Success(from) =>
      match DecodeStorage(r.targetTo, parse)
      case Failure(e) => Failure(e)
      case Success(to) =>
        Success(Item(r.id, r.ticker, from, to, r.company, r.action, r.brokerage,
                     r.ratingFrom, r.ratingTo, r.time, r.createdAt))
  }

  /** What `QueryRow(...).Scan(...)` ends in. */
  datatype Lookup = NoRows | LookupError(reason: string) | Found(row: DbRow)

  /** `GetItem`: "no rows" is 404, every other error (a query error or a refused column) is 500. */
  function GetItem(q: Lookup, parse: FloatParser): (resp: Response)
    ensures resp.status == StatusNotFound <==> q.NoRows?
    ensures resp.status == StatusInternalServerError <==> q.LookupError? || (q.Found? && ScanItem(q.row, parse).Failure?)
    ensures resp.status == StatusOK <==> q.Found? && ScanItem(q.row, parse).Success?
    ensures resp.status == StatusOK ==> resp.body == OneItem(ScanItem(q.row, parse).value)
  {
    match q
    case NoRows => Response(StatusNotFound, ErrorBody(ItemNotFound))
    case LookupError(e) => Response(StatusInternalServerError, ErrorBody(Db(e)))
    case Found(r) =>
      match ScanItem(r, parse)
      case Failure(e) => Response(StatusInternalServerError, ErrorBody(Unscannable(e)))
      case Success(it) => Response(StatusOK, OneItem(it))
  }

  /**
   * `GetItems` over the rows the query returned, in the order the store
   * returned them: 200 with every row scanned when all scan (JSON `null`
   * when there are none), else 500 with the first row's scan error.
   */
  method GetItems(q: Result<seq<DbRow>, string>, parse: FloatParser) returns (resp: Response)
    ensures q.Failure? ==> resp == Response(StatusInternalServerError, ErrorBody(Db(q.error)))
    ensures resp.status == StatusOK <==>
      q.Success? && forall i :: 0 <= i < |q.value| ==> ScanItem(q.value[i], parse).Success?
    ensures resp.status == StatusOK ==>
      && resp.body.ItemList?
      && (resp.body.items.None? <==> q.value == [])
      && (resp.body.items.Some? ==> |resp.body.items.value| == |q.value|)
      && (resp.body.items.Some? ==>
            forall i :: 0 <= i < |q.value| ==> ScanItem(q.value[i], parse) == Success(resp.body.items.value[i]))
    ensures q.Success? && resp.status != StatusOK ==>
      && resp.status == StatusInternalServerError
      && exists k :: 0 <= k < |q.value| && ScanItem(q.value[k], parse).Failure?
          && (forall i :: 0 <= i < k ==> ScanItem(q.value[i], parse).Success?)
          && resp.body == ErrorBody(Unscannable(ScanItem(q.value[k], parse).error))
  {
    if q.Failure? {
      return Response(StatusInternalServerError, ErrorBody(Db(q.error)));
    }
    var rows := q.value;
    var items: Option<seq<Item>> := None;
    var i := 0;
    while i < |rows|
      invariant 0 <= i <= |rows|
      invariant forall j :: 0 <= j < i ==> ScanItem(rows[j], parse).Success?
      invariant items.None? <==> i == 0
      invariant items.Some? ==> |items.value| == i
      invariant items.Some? ==> forall j :: 0 <= j < i ==> ScanItem(rows[j], parse) == Success(items.value[j])
    {
      var scanned := ScanItem(rows[i], parse);
      if scanned.Failure? {
        return Response(StatusInternalServerError, ErrorBody(Unscannable(scanned.error)));
      }
      items := Some((if items.Some? then items.value else []) + [scanned.value]);
      i := i + 1;
    }
    resp := Response(StatusOK, ItemList(items));
  }

  /** The item `CreateItem` answers with: the request's fields, with the store's id and creation time. */
  function Created(req: Item, id: Uuid, createdAt: Timestamp): (it: Item)
    ensures Columns(it) == Columns(req)
    ensures it.id == id && it.createdAt == createdAt
  {
    req.(id := id, createdAt := createdAt)
  }

  // ---------------------------------------------------------------------
  // The handler and its table
  // ---------------------------------------------------------------------

  /** `ItemHandler` with the `items` table it writes. */
  class ItemHandler {
    /** The rows of `items`, in insertion order. */
    var table: seq<Row>
    /** The URLs requested from the feed, in order (an observation, not program state). */
    ghost var fetched: seq<string>

    constructor (rows: seq<Row>)
      ensures table == rows && fetched == []
    {
      table := rows;
      fetched := [];
    }

    /**
     * One request of the loop: build it, send it, decode the body (whatever
     * the status). Answers the page and its `next_page`, or the response
     * that ends the run.
     */
    method FetchPage(url: string, up: Upstream, parse: FloatParser) returns (r: Result<(seq<Item>, Option<string>), Response>)
      modifies this
      ensures table == old(table)
      ensures match Request(url, up, parse)
        case NotSent(e) =>
          r == Failure(Response(StatusInternalServerError, ErrorBody(RequestFailed(e)))) && fetched == old(fetched)
        case Sent(x) => r == x && fetched == old(fetched) + [url]
    {
      var reqErr := up.newRequest(url);
      if reqErr.Some? {
        return Failure(Response(StatusInternalServerError, ErrorBody(RequestFailed(reqErr.value))));
      }
      var reply := up.fetch(url);
      fetched := fetched + [url];
      if reply.TransportError? {
        return Failure(Response(StatusBadGateway, ErrorBody(Transport(reply.reason))));
      }
      if reply.body.Garbled? {
        return Failure(Response(StatusBadGateway, ErrorBody(Undecodable(Syntax(reply.body.reason)))));
      }
      var decoded := DecodeItems(reply.body.items, parse);
      if decoded.Failure? {
        return Failure(Response(StatusBadGateway, ErrorBody(Undecodable(BadMoney(decoded.error)))));
      }
      r := Success((decoded.value, reply.body.nextPage));
    }

    /** The `range` loop over a page: each record's INSERT is tried in order; a failed one is skipped. */
    method InsertPage(page: seq<Item>, db: Database)
      modifies this
      ensures table == old(table) + Inserted(page, db.insertOk)
      ensures fetched == old(fetched)
    {
      var i := 0;
      while i < |page|
        invariant 0 <= i <= |page|
        invariant table == old(table) + Inserted(page[..i], db.insertOk)
        invariant fetched == old(fetched)
      {
        var row := Columns(page[i]);
        if db.insertOk(row) {
          table := table + [row];
        }
        assert page[..i + 1][..i] == page[..i];
        i := i + 1;
      }
      assert page[..i] == page;
    }

    /**
     * `CreateItem`: a body that does not bind is 400 and a failed INSERT 500,
     * both leaving the table as it was; otherwise the row is added and the
     * answer is 201 with the request echoed plus the store's id and
     * creation time (`stored`).
     */
    method CreateItem(request: Result<WireItem, string>, parse: FloatParser, stored: Result<(Uuid, Timestamp), string>)
      returns (resp: Response)
      modifies this
      ensures request.Failure? ==>
        resp == Response(StatusBadRequest, ErrorBody(Undecodable(Syntax(request.error)))) && table == old(table)
      ensures request.Success? && DecodeItem(request.value, parse).Failure? ==>
        resp == Response(StatusBadRequest, ErrorBody(Undecodable(BadMoney(DecodeItem(request.value, parse).error))))
        && table == old(table)
      ensures request.Success? && DecodeItem(request.value, parse).Success? ==>
        var req := DecodeItem(request.value, parse).value;
        match stored
        case Failure(e) => resp == Response(StatusInternalServerError, ErrorBody(Db(e))) && table == old(table)
        case Success(s) => resp == Response(StatusCreated, OneItem(Created(req, s.0, s.1)))
                           && table == old(table) + [Columns(req)]
      ensures fetched == old(fetched)
    {
      if request.Failure? {
        return Response(StatusBadRequest, ErrorBody(Undecodable(Syntax(request.error))));
      }
      var bound := DecodeItem(request.value, parse);
      if bound.Failure? {
        return Response(StatusBadRequest, ErrorBody(Undecodable(BadMoney(bound.error))));
      }
      var req := bound.value;
      if stored.Failure? {
        return Response(StatusInternalServerError, ErrorBody(Db(stored.error)));
      }
      table := table + [Columns(req)];
      var (id, createdAt) := stored.value;
      var item := Created(req, id, createdAt);
      resp := Response(StatusCreated, OneItem(item));
    }

    /**
     * `UpdateItems`: check the API key, delete every row, then run the
     * pagination loop. `n` is a bound on the number of pages, used only to
     * show that the loop ends.
     */
    method UpdateItems(apiKey: string, db: Database, up: Upstream, parse: FloatParser, ghost n: nat)
      returns (resp: Response)
      requires apiKey != "" && db.deleteError.None? ==> EndsWithin(BaseURL, n, up, parse)
      modifies this
      ensures var o := Sync(old(table), apiKey, db, up, parse, n);
        table == o.table && fetched == old(fetched) + o.fetched && resp == o.response
    {
      if apiKey == "" {
        return Response(StatusInternalServerError, ErrorBody(MissingApiKey));
      }
      if db.deleteError.Some? {
        return Response(StatusInternalServerError, ErrorBody(DeleteFailed(db.deleteError.value)));
      }
      table := [];
      resp := FetchAll(BaseURL, db, up, parse, n);
    }

    /**
     * One pass of the `for {}` loop of `UpdateItems`: fetch the page at
     * `url` and insert its records. It does what `FetchStep` says of `url`:
     * `done` is the answer when the loop stops here (a request that fails,
     * or a last page); otherwise the loop goes on at `next`.
     */
    method Advance(url: string, db: Database, up: Upstream, parse: FloatParser)
      returns (done: Option<Response>, next: string)
      modifies this
      ensures match FetchStep(url, up, parse)
        case Rejected(e) =>
          done == Some(Response(StatusInternalServerError, ErrorBody(RequestFailed(e))))
          && table == old(table) && fetched == old(fetched)
        case Failed(r) => done == Some(r) && table == old(table) && fetched == old(fetched) + [url]
        case Done(page) =>
          done == Some(Response(StatusOK, Message(SyncCompleted)))
          && table == old(table) + Inserted(page, db.insertOk) && fetched == old(fetched) + [url]
        case More(page, nx) =>
          done == None && next == nx
          && table == old(table) + Inserted(page, db.insertOk) && fetched == old(fetched) + [url]
    {
      next := url;
      var fetchedPage := FetchPage(url, up, parse);
      if fetchedPage.Failure? {
        return Some(fetchedPage.error), next;
      }
      var (page, np) := fetchedPage.value;
      InsertPage(page, db);
      if np.None? || np.value == "" {
        return Some(Response(StatusOK, Message(SyncCompleted))), next;
      }
      if IsAbsolute(np.value, up) {
        next := np.value;
      } else {
        next := BaseURL + "?" + "next_page=" + up.queryEscape(np.value);
      }
      done := None;
    }

    /**
     * The `for {}` loop of `UpdateItems`: fetch a page, insert its records,
     * stop on a last page, otherwise follow the next-page rule. The first
     * failure answers at once and keeps the rows inserted so far.
     */
    method FetchAll(start: string, db: Database, up: Upstream, parse: FloatParser, ghost n: nat) returns (resp: Response)
      requires EndsWithin(start, n, up, parse)
      modifies this
      ensures var o := Paginate(start, old(table), db, up, parse, n);
        table == o.table && fetched == old(fetched) + o.fetched && resp == o.response
    {
      var nextURL := start;
      ghost var goal := Paginate(start, table, db, up, parse, n);
      ghost var k := n;
      while true
        invariant EndsWithin(nextURL, k, up, parse)
        invariant var o := Paginate(nextURL, table, db, up, parse, k);
          o.table == goal.table && o.response == goal.response && fetched + o.fetched == old(fetched) + goal.fetched
        decreases k
      {
        ghost var url, t0, f0 := nextURL, table, fetched;
        var done;
        done, nextURL := Advance(nextURL, db, up, parse);
        AdvancePaginates(url, t0, f0, table, fetched, done, nextURL, db, up, parse, k);
        if done.Some? {
          return done.value;
        }
        k := k - 1;
      }
    }
  }
}
