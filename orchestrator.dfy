/**
 * `processPaymentInstruction`: parse, validate, execute and format, with every
 * failure leaving as an application error (`Err`) that carries the formatted
 * payload. `today` stands for the clock the executor reads.
 */
module Orchestrator {
  import opened Wrappers
  import opened Json
  import opened Messages
  import opened Parser
  import opened Validation
  import opened Executor
  import opened Formatter
  import opened RequestValidator

  /** The thrown `AppError`: message, HTTP status, code and the response payload. */
  datatype AppError = AppError(message: string, status: int, code: Code, data: Payload)

  datatype Outcome = Ok(response: Formatted) | Err(error: AppError)

  /** `throwResponse`: format, then raise with the payload's reason, status and code. */
  function ThrowResponse(response: Response): (r: Outcome)
    ensures r.Err? && r.error.message != ""
    ensures r.error.status == Format(response).httpStatus && r.error.data == Format(response).payload
    ensures r.error.code == response.statusCode
    ensures response.statusReason != "" ==> r.error.message == response.statusReason
  {
    var formatted := Format(response);
    var reason := formatted.payload.statusReason;
    Err(AppError(if reason != "" then reason else "Application error",
                 formatted.httpStatus, formatted.payload.statusCode, formatted.payload))
  }

  /** `extractAmountValue`: the amount when it is a valid positive integer, else `null`. */
  function ExtractAmountValue(amount: Option<string>): (r: Option<nat>)
    ensures r.Some? <==> PositiveInteger(amount).Some?
    ensures r.Some? ==> r.value > 0
  {
    PositiveInteger(amount)
  }

  /** A validator id as the executor sees it: a string, or `null`. */
  function NullOr(id: Option<string>): Option<Value> {
    if id.None? then Some(Null) else Some(Str(id.value))
  }

  /** `Array.isArray(accounts) ? accounts : []`. */
  function AccountsOf(accounts: Option<Value>): seq<Value> {
    if accounts.Some? && accounts.value.Arr? then accounts.value.items else []
  }

  /** `typeof instruction === 'string' ? instruction : ''`. */
  function TextOf(instruction: Option<Value>): string {
    if instruction.Some? && instruction.value.Str? then instruction.value.s else ""
  }

  /** The response for an instruction that is not a sentence of the grammar at all. */
  function UnparseableResponse(): Response {
    Response(Some(400), None, None, None, None, None, None, Failed, Message(SY03), SY03, Some([]))
  }

  /** The response for a grammar error: the parser's code, the verb, and nothing else it read. */
  function SyntaxErrorResponse(accounts: seq<Value>, verb: Verb, code: Code): Response {
    var reason := if Message(code) != "" then Message(code) else Message(SY03);
    Response(Some(400), Some(VerbName(verb)), ExtractAmountValue(None), None, None, None, None,
             Failed, reason, code, Some(AccountSnapshots(Arr(accounts), None, None)))
  }

  /** The response for a validation failure: the validator's code, reason and context. */
  function InvalidResponse(accounts: seq<Value>, verb: Verb, v: Validation): Response
    requires v.Invalid?
  {
    Response(Some(400), Some(VerbName(verb)), v.context.amount, v.context.currency,
             v.context.debitAccountId, v.context.creditAccountId, v.context.executeBy,
             Failed, v.reason, v.code,
             Some(AccountSnapshots(Arr(accounts), NullOr(v.context.debitAccountId), NullOr(v.context.creditAccountId))))
  }

  /** The response after execution: the executor's status and snapshots, the validator's fields. */
  function ExecutedResponse(verb: Verb, v: Validation, e: Execution): Response
    requires v.Valid?
  {
    Response(Some(e.httpStatus), Some(VerbName(verb)), Some(v.amount), Some(v.currency),
             Some(v.debitAccountId), Some(v.creditAccountId), v.executeBy,
             e.status, e.statusReason, e.statusCode, Some(e.accounts))
  }

  /** `processPaymentInstruction` on the request's `accounts` and `instruction` properties. */
  function Process(accountsField: Option<Value>, instructionField: Option<Value>, today: string): Outcome {
    Pipeline(AccountsOf(accountsField), ParseInstruction(TextOf(instructionField)), today)
  }

  /** The pipeline after coercing the inputs and parsing the instruction. */
  function Pipeline(accounts: seq<Value>, parsed: Parsed, today: string): Outcome {
    match parsed
    case Unparseable => ThrowResponse(UnparseableResponse())
    case SyntaxError(verb, code) => ThrowResponse(SyntaxErrorResponse(accounts, verb, code))
    case Instruction(verb, _, _, _, _, _) => Conclude(accounts, verb, Validate(parsed, Arr(accounts)), today)
  }

  /** The pipeline after validation: a failure is thrown, a success executed and formatted. */
  function Conclude(accounts: seq<Value>, verb: Verb, validation: Validation, today: string): Outcome {
    if validation.Invalid? then ThrowResponse(InvalidResponse(accounts, verb, validation))
    else
      var execution := Execute(Arr(accounts), validation.debitAccountId, validation.creditAccountId,
                               validation.amount, validation.executeBy, today);
      Ok(Format(ExecutedResponse(verb, validation, execution)))
  }

  /** A non-array `accounts` is the empty list. */
  lemma ProcessCoercesAccounts(accountsField: Option<Value>, instructionField: Option<Value>, today: string)
    requires !(accountsField.Some? && accountsField.value.Arr?)
    ensures AccountsOf(accountsField) == []
    ensures Process(accountsField, instructionField, today) == Pipeline([], ParseInstruction(TextOf(instructionField)), today)
  {
    assert Process(accountsField, instructionField, today)
      == Pipeline(AccountsOf(accountsField), ParseInstruction(TextOf(instructionField)), today);
  }

  /** A non-string `instruction` is the empty string, which is unparseable. */
  lemma ProcessCoercesInstruction(accountsField: Option<Value>, instructionField: Option<Value>, today: string)
    requires !(instructionField.Some? && instructionField.value.Str?)
    ensures TextOf(instructionField) == ""
    ensures Process(accountsField, instructionField, today) == Pipeline(AccountsOf(accountsField), Unparseable, today)
  {
    BlankIsUnparseable("");
    assert Process(accountsField, instructionField, today)
      == Pipeline(AccountsOf(accountsField), ParseInstruction(TextOf(instructionField)), today);
  }

  /** An unparseable instruction fails with `SY03`, 400, every field `null` and no accounts. */
  lemma PipelineUnparseable(accounts: seq<Value>, today: string)
    ensures Pipeline(accounts, Unparseable, today)
      == Err(AppError(Message(SY03), 400, SY03,
                      Payload(None, None, None, None, None, None, Failed, Message(SY03), SY03, [])))
  {
  }

  /** A blank instruction, or one that is not a string, is unparseable. */
  lemma ProcessBlankInstruction(accountsField: Option<Value>, instructionField: Option<Value>, today: string)
    requires Collapse(TextOf(instructionField)) == ""
    ensures Process(accountsField, instructionField, today) == Pipeline(AccountsOf(accountsField), Unparseable, today)
  {
    BlankIsUnparseable(TextOf(instructionField));
  }

  /**
   * A grammar error fails with the parser's code and 400, keeping only the
   * verb. Its snapshots are of the accounts without an `id`.
   */
  lemma PipelineSyntaxError(accounts: seq<Value>, verb: Verb, code: Code, today: string)
    ensures var r := Pipeline(accounts, SyntaxError(verb, code), today);
      && r.Err? && r.error.status == 400 && r.error.code == code
      && r.error.message == Message(code)
      && r.error.data == Payload(Some(VerbName(verb)), None, None, None, None, None, Failed,
                                 Message(code), code, Snapshots(accounts, None, None))
  {
  }

  /** When every account has an `id`, a grammar error reports no accounts. */
  lemma SyntaxErrorHasNoSnapshots(accounts: seq<Value>, verb: Verb, code: Code, today: string)
    requires forall k :: 0 <= k < |accounts| ==> Get(accounts[k], "id").Some?
    ensures Pipeline(accounts, SyntaxError(verb, code), today).error.data.accounts == []
  {
    PipelineSyntaxError(accounts, verb, code, today);
    SnapshotsNone(accounts, None, None);
  }

  /** A grammar error leaves with the parser's code, which is `SY01` or `SY02`. */
  lemma ProcessSyntaxErrorCodes(accountsField: Option<Value>, instructionField: Option<Value>, today: string)
    ensures var r := Process(accountsField, instructionField, today);
      ParseInstruction(TextOf(instructionField)).SyntaxError? ==> r.Err? && (r.error.code == SY01 || r.error.code == SY02)
  {
    var parsed := ParseInstruction(TextOf(instructionField));
    ParseInstructionErrorCodes(TextOf(instructionField));
    if parsed.SyntaxError? {
      assert Process(accountsField, instructionField, today) == Pipeline(AccountsOf(accountsField), parsed, today);
      PipelineSyntaxError(AccountsOf(accountsField), parsed.verb, parsed.code, today);
    }
  }

  /**
   * A validation failure leaves with 400, the validator's code and reason,
   * the fields of its context (an empty string reported as `null`), and the
   * snapshots of the accounts whose `id` equals a context id (`null` when
   * the context has none).
   */
  lemma ConcludeInvalid(accounts: seq<Value>, verb: Verb, v: Validation, today: string)
    requires v.Invalid?
    ensures var r := Conclude(accounts, verb, v, today);
      && r.Err? && r.error.status == 400 && r.error.code == v.code
      && (v.reason != "" ==> r.error.message == v.reason)
      && r.error.data == Payload(Some(VerbName(verb)), v.context.amount, NonEmpty(v.context.currency),
                                 NonEmpty(v.context.debitAccountId), NonEmpty(v.context.creditAccountId),
                                 NonEmpty(v.context.executeBy), Failed, v.reason, v.code,
                                 AccountSnapshots(Arr(accounts), NullOr(v.context.debitAccountId),
                                                  NullOr(v.context.creditAccountId)))
  {
  }

  /**
   * A validated transfer is executed: status, code, reason and snapshots are
   * the executor's, pending exactly when the date is later than today; the
   * fields are the validator's.
   */
  lemma ConcludeValid(accounts: seq<Value>, verb: Verb, v: Validation, today: string)
    requires v.Valid? && v.currency != "" && v.debitAccountId != "" && v.creditAccountId != ""
    ensures var r := Conclude(accounts, verb, v, today);
      var e := Execute(Arr(accounts), v.debitAccountId, v.creditAccountId, v.amount, v.executeBy, today);
      && r.Ok? && r.response.httpStatus == 200
      && r.response.payload == Payload(Some(VerbName(verb)), Some(v.amount), Some(v.currency),
                                       Some(v.debitAccountId), Some(v.creditAccountId),
                                       NonEmpty(v.executeBy), e.status, e.statusReason, e.statusCode, e.accounts)
      && (ShouldDelay(v.executeBy, today) ==> e.status == Pending && e.statusCode == AP02)
      && (!ShouldDelay(v.executeBy, today) ==> e.status == Successful && e.statusCode == AP00)
      && e.statusReason == Message(e.statusCode)
  {
  }

  /** On the pipeline, a validated transfer always has a non-empty currency and ids. */
  lemma PipelineValid(accounts: seq<Value>, parsed: Parsed, today: string)
    requires parsed.Instruction? && Validate(parsed, Arr(accounts)).Valid?
    ensures var v := Validate(parsed, Arr(accounts));
      && Pipeline(accounts, parsed, today) == Conclude(accounts, parsed.verb, v, today)
      && v.currency != "" && v.debitAccountId != "" && v.creditAccountId != ""
  {
    ValidateSuccess(parsed, Arr(accounts));
  }

  /**
   * The validator's and the executor's `toNumber` agree on every balance the
   * validator accepts: a number the request check allows is read as itself
   * by both, and where the validator reads NaN the executor reads 0.
   */
  lemma BalanceReadsAgree(v: Option<Value>)
    ensures BalanceNumber(v).Some? ==> SnapshotNumber(v) == BalanceNumber(v).value
    ensures BalanceNumber(v).None? ==> SnapshotNumber(v) == 0
    ensures IsFiniteNumber(v) ==> BalanceNumber(v) == Some(v.value.n) && SnapshotNumber(v) == v.value.n
  {
  }

  /** The HTTP status of an outcome and its payload, thrown or returned. */
  function Reported(r: Outcome): Formatted {
    if r.Ok? then r.response else Formatted(r.error.status, r.error.data)
  }

  /** An outcome is an error exactly when it is `failed`, exactly when its status is 400. */
  predicate Coherent(r: Outcome) {
    var f := Reported(r);
    && (r.Err? <==> f.payload.status == Failed)
    && (f.payload.status == Failed <==> f.httpStatus == 400)
    && (r.Err? ==> r.error.code == r.error.data.statusCode && r.error.message != "")
  }

  /** Every exit of the pipeline is coherent. */
  lemma PipelineCoherent(accounts: seq<Value>, parsed: Parsed, today: string)
    ensures Coherent(Pipeline(accounts, parsed, today))
  {
    match parsed
    case Unparseable =>
      PipelineUnparseable(accounts, today);
    case SyntaxError(verb, code) =>
      PipelineSyntaxError(accounts, verb, code, today);
    case Instruction(verb, _, _, _, _, _) =>
      var v := Validate(parsed, Arr(accounts));
      assert Pipeline(accounts, parsed, today) == Conclude(accounts, verb, v, today);
      if v.Invalid? {
        ConcludeInvalid(accounts, verb, v, today);
      } else {
        PipelineValid(accounts, parsed, today);
        ConcludeValid(accounts, verb, v, today);
      }
  }

  /** `status == 'failed'` exactly when the status is 400, and every failure is thrown. */
  lemma ProcessCoherent(accountsField: Option<Value>, instructionField: Option<Value>, today: string)
    ensures Coherent(Process(accountsField, instructionField, today))
  {
    PipelineCoherent(AccountsOf(accountsField), ParseInstruction(TextOf(instructionField)), today);
  }

  // ------------------------------------------------ the endpoint's composition

  /** The request-shape failure: `SY03` with the shape check's reason and every field `null`. */
  function ShapeError(reason: string): AppError {
    AppError(reason, 400, SY03, Payload(None, None, None, None, None, None, Failed, reason, SY03, []))
  }

  /** The handler: `rc.body || {}`, the shape check, then the pipeline on what it accepted. */
  function Handle(body: Option<Value>, today: string): Outcome {
    var payload := if Present(body) then body.value else Obj(map[]);
    var checked := ValidatePayload(payload);
    if checked.Rejected? then Err(ShapeError(checked.reason))
    else Process(Some(Arr(checked.accounts)), Some(Str(checked.instruction)), today)
  }

  /**
   * A request the shape check refuses never reaches the pipeline; one it
   * accepts runs the pipeline on the same accounts and the trimmed instruction.
   */
  lemma HandleComposition(body: Option<Value>, today: string)
    ensures var payload := if Present(body) then body.value else Obj(map[]);
      var checked := ValidatePayload(payload);
      var r := Handle(body, today);
      && (checked.Rejected? ==>
            && r.Err? && r.error.status == 400 && r.error.code == SY03
            && r.error.data.statusReason == checked.reason && r.error.data.accounts == []
            && r.error.data.type_.None? && r.error.data.amount.None? && r.error.data.currency.None?
            && r.error.data.debitAccount.None? && r.error.data.creditAccount.None? && r.error.data.executeBy.None?)
      && (checked.Accepted? ==>
            && Get(payload, "accounts") == Some(Arr(checked.accounts))
            && r == Process(Get(payload, "accounts"), Some(Str(checked.instruction)), today))
      && (!Present(body) ==> r == Err(ShapeError(NoAccounts)))
  {
    var payload := if Present(body) then body.value else Obj(map[]);
    if ValidatePayload(payload).Accepted? {
      AcceptedRequest(payload);
    }
  }
}
