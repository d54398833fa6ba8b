/**
 * `formatResponse`: the HTTP status and the response payload, with every
 * falsy string field turned into `null`.
 */
module Formatter {
  import opened Wrappers
  import opened Json
  import opened Messages
  import opened Executor

  /**
   * The named arguments. `None` is an argument left out; a left-out
   * `accounts` defaults to the empty list and a left-out or zero
   * `httpStatus` to 200.
   */
  datatype Response = Response(
    httpStatus: Option<int>,
    type_: Option<string>,
    amount: Option<int>,
    currency: Option<string>,
    debitAccountId: Option<string>,
    creditAccountId: Option<string>,
    executeBy: Option<string>,
    status: Status,
    statusReason: string,
    statusCode: Code,
    accounts: Option<seq<Snapshot>>)

  /** The response body; `None` is `null`. */
  datatype Payload = Payload(
    type_: Option<string>,
    amount: Option<int>,
    currency: Option<string>,
    debitAccount: Option<string>,
    creditAccount: Option<string>,
    executeBy: Option<string>,
    status: Status,
    statusReason: string,
    statusCode: Code,
    accounts: seq<Snapshot>)

  datatype Formatted = Formatted(httpStatus: int, payload: Payload)

  /** `formatResponse`; what each field becomes is stated by `FormatFields`. */
  function Format(response: Response): (r: Formatted)
    ensures Normal(r)
  {
    Formatted(
      if response.httpStatus.None? || response.httpStatus.value == 0 then 200 else response.httpStatus.value,
      Payload(
        NonEmpty(response.type_),
        response.amount,
        NonEmpty(response.currency),
        NonEmpty(response.debitAccountId),
        NonEmpty(response.creditAccountId),
        NonEmpty(response.executeBy),
        response.status,
        response.statusReason,
        response.statusCode,
        response.accounts.GetOr([])))
  }

  /** The payload's fields read back as the arguments of another call. */
  function Reformat(f: Formatted): Response {
    var p := f.payload;
    Response(Some(f.httpStatus), p.type_, p.amount, p.currency, p.debitAccount, p.creditAccount,
             p.executeBy, p.status, p.statusReason, p.statusCode, Some(p.accounts))
  }

  /** No string field of a payload is the empty string, and the status is never 0. */
  predicate Normal(f: Formatted) {
    var p := f.payload;
    && f.httpStatus != 0
    && p.type_ != Some("") && p.currency != Some("") && p.debitAccount != Some("")
    && p.creditAccount != Some("") && p.executeBy != Some("")
  }

  /**
   * Every field is passed through except where JavaScript's `||` intervenes:
   * a non-empty string is kept and an empty or missing one becomes `null`;
   * a given non-zero status is kept; status, reason, code and amount are
   * copied as they are.
   */
  lemma FormatFields(response: Response)
    ensures var f := Format(response);
      && Normal(f)
      && (f.httpStatus == 200 <==> response.httpStatus.None? || response.httpStatus.value in {0, 200})
      && (response.httpStatus.Some? && response.httpStatus.value != 0 ==> f.httpStatus == response.httpStatus.value)
      && (f.payload.type_.Some? <==> response.type_.Some? && response.type_.value != "")
      && (f.payload.type_.Some? ==> f.payload.type_ == response.type_)
      && (f.payload.currency.Some? <==> response.currency.Some? && response.currency.value != "")
      && (f.payload.currency.Some? ==> f.payload.currency == response.currency)
      && (f.payload.debitAccount.Some? <==> response.debitAccountId.Some? && response.debitAccountId.value != "")
      && (f.payload.debitAccount.Some? ==> f.payload.debitAccount == response.debitAccountId)
      && (f.payload.creditAccount.Some? <==> response.creditAccountId.Some? && response.creditAccountId.value != "")
      && (f.payload.creditAccount.Some? ==> f.payload.creditAccount == response.creditAccountId)
      && (f.payload.executeBy.Some? <==> response.executeBy.Some? && response.executeBy.value != "")
      && (f.payload.executeBy.Some? ==> f.payload.executeBy == response.executeBy)
      && f.payload.amount == response.amount
      && f.payload.status == response.status
      && f.payload.statusReason == response.statusReason
      && f.payload.statusCode == response.statusCode
      && (response.accounts.None? ==> f.payload.accounts == [])
      && (response.accounts.Some? ==> f.payload.accounts == response.accounts.value)
  {
  }

  /** Formatting is idempotent: a formatted response passed through again comes back unchanged. */
  lemma FormatIdempotent(response: Response)
    ensures Format(Reformat(Format(response))) == Format(response)
  {
  }

  /** Exactly the normal responses are fixed points of formatting. */
  lemma FormatFixedPoint(f: Formatted)
    ensures Format(Reformat(f)) == f <==> Normal(f)
  {
  }
}
