/** The complete payment lifecycle the integration tests walk through,
    written as clients of the three handlers sharing one table: what a
    caller can conclude from the handlers' contracts alone. */
module Lifecycle {
  import opened Payments
  import opened Gateway
  import CreatePaymentHandler
  import ListPaymentsHandler
  import GetPaymentHandler

  /** Create a payment, get it back by the returned id, list everything,
      list its currency and list another currency, with a backend that
      does not fail. */
  method CreateThenRead(table: PaymentsTable, amount: real, currency: string, other: string, freshId: string)
    returns (created: Response, got: Response, all: Response, same: Response, different: Response)
    requires table.Valid()
    requires amount > 0.0 && Utf16Length(currency) == 3 && Utf16Length(other) == 3 && other != currency
    requires freshId != "" && freshId !in table.items
    modifies table
    ensures created == Response(201, Created(freshId))
    ensures got == Response(200, Record(Item(freshId, amount, currency)))
    ensures all.statusCode == 200 && all.body.DataList? && Item(freshId, amount, currency) in all.body.data
    ensures same.statusCode == 200 && same.body.DataList? && Item(freshId, amount, currency) in same.body.data
    ensures different.statusCode == 200 && different.body.DataList? && Item(freshId, amount, currency) !in different.body.data
  {
    var body := Json(Object(map["amount" := JNumber(amount), "currency" := JString(currency)]));
    created := CreatePaymentHandler.Handler(table, body, freshId, false);
    var p := Payment(freshId, amount, currency);
    assert table.items == Put(old(table.items), p);
    got := GetPaymentHandler.Handler(table, Some(created.body.result), false);
    all := ListPaymentsHandler.Handler(table, None, false);
    ListingAfterPut(old(table.items), p, all.body.data, Everything);
    same := ListPaymentsHandler.Handler(table, Some(JString(currency)), false);
    ListingAfterPut(old(table.items), p, same.body.data, CurrencyIs(currency));
    different := ListPaymentsHandler.Handler(table, Some(JString(other)), false);
    ListingAfterPut(old(table.items), p, different.body.data, CurrencyIs(other));
  }

  /** Creating twice with the same amount and currency is not idempotent:
      two records under two ids. */
  method CreateTwice(table: PaymentsTable, amount: real, currency: string, id1: string, id2: string)
    returns (first: Response, second: Response)
    requires table.Valid()
    requires amount > 0.0 && Utf16Length(currency) == 3
    requires id1 != "" && id2 != "" && id1 != id2 && id1 !in table.items && id2 !in table.items
    modifies table
    ensures first == Response(201, Created(id1)) && second == Response(201, Created(id2))
    ensures table.items == old(table.items)[id1 := Item(id1, amount, currency)][id2 := Item(id2, amount, currency)]
    ensures |table.items| == |old(table.items)| + 2
  {
    var body := Json(Object(map["amount" := JNumber(amount), "currency" := JString(currency)]));
    first := CreatePaymentHandler.Handler(table, body, id1, false);
    second := CreatePaymentHandler.Handler(table, body, id2, false);
  }
}
