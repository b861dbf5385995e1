/** `StockOrdersService.get_stock_orders`: request the orders report for
    a fixed day, download the archive it points to, and collect the rows
    still waiting for approval (an empty `status`). */
module StockOrdersService {
  import opened PyJson
  import opened Http
  import opened Rows
  import opened Grouping
  import opened Upstream
  import StockOrdersController

  /** The requested period: both ends are the same literal day, whatever
      the current date. */
  const OrdersDay: string := "2024-10-11"
  const Window: Json := Obj(map["startDate" := Str(OrdersDay), "endDate" := Str(OrdersDay)])

  /** What the report request gave: the status and the body (`None` for
      an empty body, an exception when it is not JSON), a
      `RequestException`, or a failure while building the headers (a
      token error, which is not a `RequestException`). */
  datatype Posted =
    | Posted(status: int, content: Option<Eval<Json>>)
    | PostRequestError
    | HeadersFailed

  const Subject: string := "Ordens Pendentes de Aprovação"

  /** `send_pending_orders_email`: to `NOTIFY_EMAIL` (`None` when unset),
      the orders rendered into the body. */
  datatype OrdersMail = OrdersMail(to: Json, subject: string, orders: seq<Row>)

  /** A call's effects: the body posted (none when the headers failed),
      the archive URL fetched, the mails sent, and the result — `None`,
      the order list, or an exception. */
  datatype Run = Run(requested: Option<Json>, fetched: Option<Json>, mailed: seq<OrdersMail>,
                     pending: Eval<Option<seq<Row>>>)

  /** `response_data.get("result", {}).get("url")`: raises on a body or a
      `result` that is not a dict. */
  function ResultUrl(data: Json): (r: Eval<Json>)
    ensures r.Ok? && Truthy(r.value) <==> MemberUrl(data, "result").Some?
    ensures MemberUrl(data, "result").Some? ==> r == Ok(MemberUrl(data, "result").value)
  {
    match Get(data, "result", EmptyObj)
    case Raised => Raised
    case Ok(result) => Get(result, "url", Null)
  }

  /** `row["status"] == ""`. */
  function IsPending(): Row -> bool {
    row => "status" in row && row["status"] == ""
  }

  predicate AllHaveStatus(rows: seq<Row>) {
    forall k :: 0 <= k < |rows| ==> "status" in rows[k]
  }

  /** The order filter over the rows of every member, in order: a row
      without a `status` column raises `KeyError`. */
  function Pending(rows: seq<Row>): (r: Eval<seq<Row>>)
    ensures r.Ok? <==> AllHaveStatus(rows)
    ensures r.Ok? ==> forall k :: 0 <= k < |r.value| ==> "status" in r.value[k] && r.value[k]["status"] == ""
    ensures r.Ok? ==> IsSubsequence(r.value, rows)
    ensures r.Ok? ==> forall row :: row in rows && "status" in row && row["status"] == "" ==> row in r.value
  {
    if AllHaveStatus(rows) then
      FilterKeeps(rows, IsPending());
      Ok(Filter(rows, IsPending()))
    else Raised
  }

  lemma AllHaveStatusAppend(rows: seq<Row>, row: Row)
    ensures AllHaveStatus(rows + [row]) <==> AllHaveStatus(rows) && "status" in row
  {
    var all := rows + [row];
    assert forall k :: 0 <= k < |rows| ==> all[k] == rows[k];
    assert all[|rows|] == row;
  }

  /** Every row of every member is among the flattened rows. */
  lemma {:induction false} FlattenContains(members: seq<seq<Row>>, i: nat, j: nat)
    requires i < |members| && j < |members[i]|
    ensures members[i][j] in Flatten(members)
    decreases |members|
  {
    var n := |members| - 1;
    if i < n {
      assert members[..n][i] == members[i];
      FlattenContains(members[..n], i, j);
    }
  }

  lemma FlattenStep(members: seq<seq<Row>>, i: nat)
    requires i < |members|
    ensures Flatten(members[..i + 1]) == Flatten(members[..i]) + members[i]
  {
    assert members[..i + 1][..i] == members[..i];
  }

  /** The nested loop of `get_stock_orders`: for every member, for every
      row, keep it when its `status` is empty. */
  method CollectPending(members: seq<seq<Row>>) returns (r: Eval<seq<Row>>)
    ensures r == Pending(Flatten(members))
  {
    var orders: seq<Row> := [];
    ghost var seen: seq<Row> := [];
    var i := 0;
    while i < |members|
      invariant 0 <= i <= |members|
      invariant seen == Flatten(members[..i])
      invariant AllHaveStatus(seen)
      invariant orders == Filter(seen, IsPending())
    {
      var rows := members[i];
      var j := 0;
      while j < |rows|
        invariant 0 <= j <= |rows|
        invariant seen == Flatten(members[..i]) + rows[..j]
        invariant AllHaveStatus(seen)
        invariant orders == Filter(seen, IsPending())
      {
        var row := rows[j];
        if "status" !in row {
          FlattenContains(members, i, j);
          return Raised;
        }
        AllHaveStatusAppend(seen, row);
        FilterAppend(seen, row, IsPending());
        if row["status"] == "" {
          orders := orders + [row];
        }
        seen := seen + [row];
        assert rows[..j + 1] == rows[..j] + [row];
        j := j + 1;
      }
      assert rows[..j] == rows;
      FlattenStep(members, i);
      i := i + 1;
    }
    assert members[..i] == members;
    return Ok(orders);
  }

  /** After a usable archive: the orders, mailed when there are any. */
  function Deliver(requested: Json, url: Json, rows: seq<Row>, notify: Json, send: OrdersMail -> bool): Run {
    match Pending(rows)
    case Raised => Run(Some(requested), Some(url), [], Raised)
    case Ok(orders) =>
      if |orders| == 0 then Run(Some(requested), Some(url), [], Ok(Some(orders)))
      else
        var mail := OrdersMail(notify, Subject, orders);
        Run(Some(requested), Some(url), [mail], if send(mail) then Ok(Some(orders)) else Raised)
  }

  /** `get_stock_orders`, with `post` the report request for a body,
      `fetch` the archive download for a URL, and `send` whether the
      email service delivered a mail (a failure raises). */
  function GetStockOrders(post: Json -> Posted, fetch: Json -> ZipDownload, notify: Json,
                          send: OrdersMail -> bool): (run: Run)
    ensures run.requested.Some? ==> run.requested.value == Window
    ensures run.requested.None? <==> post(Window).HeadersFailed?
    ensures post(Window).HeadersFailed? ==> run.pending.Raised?
    ensures post(Window).PostRequestError? ==> run.pending == Ok(None) && run.fetched.None?
    ensures post(Window).Posted? && post(Window).status != ACCEPTED ==> run.pending == Ok(None) && run.fetched.None?
    ensures post(Window).Posted? && (post(Window).content.None? || post(Window).content.value.Raised?) ==>
      run.pending == Ok(None) && run.fetched.None?
    ensures var p := post(Window);
      p.Posted? && p.status == ACCEPTED && p.content.Some? && p.content.value.Ok? ==>
        (run.fetched.Some? <==> MemberUrl(p.content.value.value, "result").Some?)
        && (run.fetched.None? ==> run.pending.Raised?)
        && (run.fetched.Some? ==> run.fetched.value == MemberUrl(p.content.value.value, "result").value)
    ensures run.fetched.Some? && fetch(run.fetched.value).ZipDownloadError? ==> run.pending == Ok(None)
    ensures run.fetched.Some? && fetch(run.fetched.value).Zipped? && fetch(run.fetched.value).status != OK ==>
      run.pending == Ok(None)
    ensures run.pending.Ok? && run.pending.value.Some? ==>
      run.fetched.Some? && fetch(run.fetched.value).Zipped? && fetch(run.fetched.value).members.Ok?
      && Pending(Flatten(fetch(run.fetched.value).members.value)) == Ok(run.pending.value.value)
    ensures run.mailed == [] || (|run.mailed| == 1 && run.mailed[0].to == notify && run.mailed[0].subject == Subject
                                 && run.mailed[0].orders != [])
    ensures |run.mailed| == 1 ==> (run.pending.Ok? <==> send(run.mailed[0]))
    ensures |run.mailed| == 1 && run.pending.Ok? ==> run.pending.value == Some(run.mailed[0].orders)
    ensures run.pending.Ok? && run.pending.value.Some? ==> (run.mailed != [] <==> run.pending.value.value != [])
  {
    match post(Window)
    case HeadersFailed => Run(None, None, [], Raised)
    case PostRequestError => Run(Some(Window), None, [], Ok(None))
    case Posted(status, content) =>
      if status != ACCEPTED || content.None? || content.value.Raised? then Run(Some(Window), None, [], Ok(None))
      else
        match ResultUrl(content.value.value)
        case Raised => Run(Some(Window), None, [], Raised)
        case Ok(url) =>
          if !Truthy(url) then Run(Some(Window), None, [], Raised)
          else
            match fetch(url)
            case ZipDownloadError => Run(Some(Window), Some(url), [], Ok(None))
            case Zipped(zipStatus, members) =>
              if zipStatus != OK then Run(Some(Window), Some(url), [], Ok(None))
              else
                match members
                case Raised => Run(Some(Window), Some(url), [], Raised)
                case Ok(ms) => Deliver(Window, url, Flatten(ms), notify, send)
  }

  /** The `orders` route fed by this service: a 200 exactly when the
      archive holds pending orders and their mail went out; every
      exception, the missing-URL one included, is the generic 500. */
  lemma OrdersRoute(post: Json -> Posted, fetch: Json -> ZipDownload, notify: Json, send: OrdersMail -> bool)
    ensures var run := GetStockOrders(post, fetch, notify, send);
      var h := StockOrdersController.Handle(run.pending);
      (h.reply.status == OK <==> |run.mailed| == 1 && send(run.mailed[0]))
      && (h.reply.status == OK ==> h.reply.body == RowsJson(run.mailed[0].orders))
      && (run.pending.Raised? <==> h.reply == InternalError)
  {
  }
}
