/** The get handler of be-test/src/getPayment.ts: reject a missing path id,
    look the id up, and answer 200, 404 or 500. */
module GetPaymentHandler {
  import opened Payments
  import opened Gateway

  /** `!paymentId`: the path parameter is undefined or empty. */
  predicate IdMissing(pathId: Option<string>) {
    pathId.None? || pathId.value == ""
  }

  /** `handler`: `pathId` is `event.pathParameters?.id`, `fault` how the
      table answers the lookup. */
  method Handler(table: PaymentsTable, pathId: Option<string>, fault: bool)
    returns (resp: Response)
    requires table.Valid()
    ensures resp.statusCode == 400 <==> IdMissing(pathId)
    ensures resp.statusCode == 400 ==> resp.body == ErrorOnly("Payment ID is required")
    ensures resp.statusCode == 500 <==> !IdMissing(pathId) && fault
    ensures resp.statusCode == 500 ==> resp.body == ErrorOnly(InternalServerError)
    ensures resp.statusCode == 404 <==> !IdMissing(pathId) && !fault && pathId.value !in table.items
    ensures resp.statusCode == 404 ==> resp.body == ErrorOnly("Payment not found")
    ensures resp.statusCode == 200 <==> !IdMissing(pathId) && !fault && pathId.value in table.items
    ensures resp.statusCode == 200 ==>
      resp.body == Record(table.items[pathId.value]) && resp.body.item.paymentId == pathId.value
  {
    if IdMissing(pathId) {
      return Response(400, ErrorOnly("Payment ID is required"));
    }
    var payment := table.GetPayment(pathId.value, fault);
    if payment.StoreFailed? {
      return Response(500, ErrorOnly(InternalServerError));
    }
    if payment.value.None? {
      return Response(404, ErrorOnly("Payment not found"));
    }
    return Response(200, Record(payment.value.value));
  }
}
