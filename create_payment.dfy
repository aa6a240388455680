/** The create handler of be-test/src/createPayment.ts: check the body
    against `paymentInputSchema`, give the payment a fresh id, write it, and
    answer 201, 422 or 500. */
module CreatePaymentHandler {
  import opened Payments
  import opened Gateway

  /** The part of a body that passed the schema. */
  datatype PaymentInput = PaymentInput(amount: real, currency: string)

  datatype Checked = Accepted(input: PaymentInput) | Rejected(issues: seq<Violation>)

  /** `amount: z.number().positive()` holds of the fields. */
  predicate AmountAcceptable(fields: map<string, JsonValue>) {
    "amount" in fields && fields["amount"].JNumber? && fields["amount"].num > 0.0
  }

  /** `currency: z.string().min(3).max(3)` holds of the fields; the bounds
      apply to the JavaScript length. */
  predicate CurrencyAcceptable(fields: map<string, JsonValue>) {
    "currency" in fields && fields["currency"].JString? && Utf16Length(fields["currency"].str) == 3
  }

  /** The whole schema holds: an object whose amount is a positive number
      and whose currency is a string of JavaScript length 3. */
  predicate Acceptable(body: ParsedBody) {
    body.Object? && AmountAcceptable(body.fields) && CurrencyAcceptable(body.fields)
  }

  /** The `amount` rule: a type violation when it is missing or not a
      number, else an exclusive lower bound of 0. */
  function AmountIssues(fields: map<string, JsonValue>): seq<Violation> {
    if "amount" !in fields || !fields["amount"].JNumber? then
      [Violation(Field("amount"), InvalidType(NumberType))]
    else if fields["amount"].num <= 0.0 then
      [Violation(Field("amount"), TooSmall(0, false))]
    else
      []
  }

  /** The `currency` rule: a type violation when it is missing or not a
      string, else the inclusive minimum and maximum of 3, both checked. */
  function CurrencyIssues(fields: map<string, JsonValue>): seq<Violation> {
    if "currency" !in fields || !fields["currency"].JString? then
      [Violation(Field("currency"), InvalidType(StringType))]
    else
      var n := Utf16Length(fields["currency"].str);
      (if n < 3 then [Violation(Field("currency"), TooSmall(3, true))] else []) +
      (if n > 3 then [Violation(Field("currency"), TooBig(3, true))] else [])
  }

  /** `paymentInputSchema.safeParse`: every field's violations are reported,
      amount first; a body that is not an object is rejected as a whole. */
  function CheckPayment(body: ParsedBody): (r: Checked)
    ensures r.Accepted? <==> Acceptable(body)
    ensures r.Accepted? ==>
      r.input.amount == body.fields["amount"].num && r.input.currency == body.fields["currency"].str
    ensures r.Rejected? ==> r.issues != []
    ensures r.Rejected? ==> forall v :: v in r.issues ==>
      v.path in {Root, Field("amount"), Field("currency")}
    ensures r.Rejected? && body.Object? ==>
      ((exists v :: v in r.issues && v.path == Field("amount")) <==> !AmountAcceptable(body.fields))
    ensures r.Rejected? && body.Object? ==>
      ((exists v :: v in r.issues && v.path == Field("currency")) <==> !CurrencyAcceptable(body.fields))
  {
    match body
    case NotAnObject => Rejected([Violation(Root, InvalidType(ObjectType))])
    case Object(fields) =>
      var issues := AmountIssues(fields) + CurrencyIssues(fields);
      if issues == [] then
        Accepted(PaymentInput(fields["amount"].num, fields["currency"].str))
      else
        Rejected(issues)
  }

  /** A missing amount is reported at `amount` as a type violation
      (expected a number). */
  lemma MissingAmountReported(fields: map<string, JsonValue>)
    requires "amount" !in fields
    ensures CheckPayment(Object(fields)).Rejected?
    ensures Violation(Field("amount"), InvalidType(NumberType)) in CheckPayment(Object(fields)).issues
  {
  }

  /** A number amount that is not positive violates the exclusive lower
      bound 0 at `amount`. */
  lemma NonPositiveAmountReported(fields: map<string, JsonValue>)
    requires "amount" in fields && fields["amount"].JNumber? && fields["amount"].num <= 0.0
    ensures CheckPayment(Object(fields)).Rejected?
    ensures Violation(Field("amount"), TooSmall(0, false)) in CheckPayment(Object(fields)).issues
  {
  }

  /** A currency of JavaScript length above 3 violates the maximum of 3,
      one below 3 violates the inclusive minimum of 3, both at `currency`. */
  lemma CurrencyLengthReported(fields: map<string, JsonValue>)
    requires "currency" in fields && fields["currency"].JString? && Utf16Length(fields["currency"].str) != 3
    ensures CheckPayment(Object(fields)).Rejected?
    ensures Utf16Length(fields["currency"].str) > 3 ==>
      Violation(Field("currency"), TooBig(3, true)) in CheckPayment(Object(fields)).issues
    ensures Utf16Length(fields["currency"].str) < 3 ==>
      Violation(Field("currency"), TooSmall(3, true)) in CheckPayment(Object(fields)).issues
  {
  }

  /** A currency counts in UTF-16 units, as JavaScript does: U+1F600 "A"
      (two characters, length 3) is accepted, and two U+1F600 (length 4)
      exceed the maximum. */
  lemma AstralCurrencyMeasuredInUtf16(amount: real)
    requires amount > 0.0
    ensures CheckPayment(Object(map["amount" := JNumber(amount), "currency" := JString("\U{1F600}A")])).Accepted?
    ensures CheckPayment(Object(map["amount" := JNumber(amount), "currency" := JString("\U{1F600}\U{1F600}")]))
      == Rejected([Violation(Field("currency"), TooBig(3, true))])
  {
  }

  /** A missing body reads as `{}`: both fields are reported missing. */
  lemma MissingBodyRejected()
    ensures CheckPayment(ParseInput(NoBody)) == Rejected([
      Violation(Field("amount"), InvalidType(NumberType)),
      Violation(Field("currency"), InvalidType(StringType))])
  {
  }

  /** The `id` field the client put in the body, if any. */
  function ClientId(event: RequestBody): Option<JsonValue> {
    var parsed := ParseInput(event);
    if parsed.Object? && "id" in parsed.fields then Some(parsed.fields["id"]) else None
  }

  /** Every stored item has a positive amount and a currency of JavaScript
      length 3. */
  predicate AllConform(items: map<string, Item>) {
    forall k :: k in items ==> items[k].amount > 0.0 && Utf16Length(items[k].currency) == 3
  }

  /** `handler`: `freshId` is the value `randomUUID()` returns, `fault` how
      the table answers the put. */
  method Handler(table: PaymentsTable, event: RequestBody, freshId: string, fault: bool)
    returns (resp: Response)
    requires table.Valid()
    requires freshId != "" && freshId !in table.items
    requires ClientId(event) != Some(JString(freshId))
    modifies table
    ensures table.Valid()
    ensures resp.statusCode == 422 <==> !Acceptable(ParseInput(event))
    ensures resp.statusCode == 500 <==> Acceptable(ParseInput(event)) && fault
    ensures resp.statusCode == 201 <==> Acceptable(ParseInput(event)) && !fault
    ensures resp.statusCode == 422 ==>
      resp.body == ErrorWithDetails("Invalid input", CheckPayment(ParseInput(event)).issues)
    ensures resp.statusCode == 500 ==> resp.body == ErrorOnly(InternalServerError)
    ensures resp.statusCode != 201 ==> table.items == old(table.items)
    ensures resp.statusCode == 201 ==>
      var input := CheckPayment(ParseInput(event)).input;
      && resp.body == Created(freshId)
      && table.items == Put(old(table.items), Payment(freshId, input.amount, input.currency))
      && |table.items| == |old(table.items)| + 1
    ensures resp.statusCode == 201 ==> ClientId(event) != Some(JString(resp.body.result))
    ensures AllConform(old(table.items)) ==> AllConform(table.items)
  {
    var payment := ParseInput(event);
    var res := CheckPayment(payment);
    if res.Rejected? {
      return Response(422, ErrorWithDetails("Invalid input", res.issues));
    }
    var paymentWithId := Payment(freshId, res.input.amount, res.input.currency);
    var written := table.CreatePayment(paymentWithId, fault);
    if written.StoreFailed? {
      return Response(500, ErrorOnly(InternalServerError));
    }
    assert table.items.Keys == old(table.items).Keys + {freshId};
    return Response(201, Created(paymentWithId.id));
  }
}
