/** `StockOrdersController` (route `/api/v1/orders`): one call to the
    pending-orders service per POST, its result mapped to a status. */
module StockOrdersController {
  import opened PyJson
  import opened Http
  import opened Rows

  const NoOrders: Reply := Reply(NO_CONTENT, Message("Nenhuma ordem pendente encontrada."))

  /** The `orders` route, with `pending` the outcome of
      `get_stock_orders`: `None`, a list of pending rows, or an exception.
      The event log written before the call catches its own exceptions and
      its answer is discarded, so it does not affect the reply. */
  function Handle(pending: Eval<Option<seq<Row>>>): (h: Handled)
    ensures h.calls == [Trigger]
    ensures h.reply.status == OK <==> pending.Ok? && pending.value.Some? && |pending.value.value| > 0
    ensures h.reply.status == OK ==> h.reply.body == RowsJson(pending.value.value)
    ensures h.reply.status == NO_CONTENT <==> pending.Ok? && (pending.value.None? || pending.value.value == [])
    ensures pending.Raised? <==> h.reply == InternalError
  {
    var leg := match pending
      case Raised => Leg(Raised, [Trigger])
      case Ok(orders) =>
        if orders.None? || |orders.value| == 0 then Leg(Ok(NoOrders), [Trigger])
        else Leg(Ok(Reply(OK, RowsJson(orders.value))), [Trigger]);
    Catch(leg, InternalError)
  }
}
