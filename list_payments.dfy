/** The list handler of be-test/src/listPayments.ts: check the optional
    `currency` query parameter against `currencySchema`, then scan or query
    the currency index, and answer 200, 400 or 500. */
module ListPaymentsHandler {
  import opened Payments
  import opened Gateway

  /** `currencySchema`: the parameter must be a string of JavaScript
      length 3. */
  function CurrencyIssues(v: JsonValue): (r: seq<Violation>)
    ensures r == [] <==> v.JString? && Utf16Length(v.str) == 3
    ensures forall x :: x in r ==> x.path == Field("currency")
    ensures !v.JString? ==> r == [Violation(Field("currency"), InvalidType(StringType))]
  {
    if !v.JString? then
      [Violation(Field("currency"), InvalidType(StringType))]
    else if Utf16Length(v.str) != 3 then
      [Violation(Field("currency"), NotExactLength(3))]
    else
      []
  }

  /** The parameter is absent, or a string of JavaScript length 3. */
  predicate FilterAcceptable(currency: Option<JsonValue>) {
    currency.None? || (currency.value.JString? && Utf16Length(currency.value.str) == 3)
  }

  /** What the store is asked for once the parameter is acceptable. */
  function FilterFor(currency: Option<JsonValue>): Filter
    requires FilterAcceptable(currency)
  {
    if currency.None? then Everything else CurrencyIs(currency.value.str)
  }

  /** `handler`: `currency` is `event.queryStringParameters?.currency`
      (`None` when the parameter or all query parameters are missing),
      `fault` how the table answers the scan or the query. */
  method Handler(table: PaymentsTable, currency: Option<JsonValue>, fault: bool)
    returns (resp: Response)
    requires table.Valid()
    ensures resp.statusCode == 400 <==> !FilterAcceptable(currency)
    ensures resp.statusCode == 400 ==>
      resp.body == ErrorWithDetails("Invalid Input", CurrencyIssues(currency.value)) &&
      resp.body.details != []
    ensures resp.statusCode == 500 <==> FilterAcceptable(currency) && fault
    ensures resp.statusCode == 500 ==> resp.body == ErrorOnly(InternalServerError)
    ensures resp.statusCode == 200 <==> FilterAcceptable(currency) && !fault
    ensures resp.statusCode == 200 ==>
      resp.body.DataList? && IsListing(resp.body.data, table.items, FilterFor(currency))
  {
    if currency.Some? {
      var issues := CurrencyIssues(currency.value);
      if issues != [] {
        return Response(400, ErrorWithDetails("Invalid Input", issues));
      }
    }
    var payments: Outcome<seq<Item>>;
    if Truthy(currency) {
      payments := table.ListPaymentsByCurrency(currency.value.str, fault);
    } else {
      payments := table.ListPayments(fault);
    }
    if payments.StoreFailed? {
      return Response(500, ErrorOnly(InternalServerError));
    }
    return Response(200, DataList(payments.value));
  }

  /** An empty `currency` is an invalid input like any other wrong length:
      400 with a length violation at `currency`, and no query. */
  lemma EmptyCurrencyRejected()
    ensures !FilterAcceptable(Some(JString("")))
    ensures CurrencyIssues(JString("")) == [Violation(Field("currency"), NotExactLength(3))]
  {
  }

  /** Once the parameter is acceptable, the scan is chosen exactly when it
      is absent; a present one is always passed to the index query as is. */
  lemma ScanOnlyWhenAbsent(currency: Option<JsonValue>)
    requires FilterAcceptable(currency)
    ensures FilterFor(currency) == Everything <==> currency.None?
    ensures currency.Some? ==> Truthy(currency) && FilterFor(currency) == CurrencyIs(currency.value.str)
  {
  }
}
