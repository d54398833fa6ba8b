# Payment-instruction pipeline, modelled in Dafny

This project models the service that turns a one-line transfer sentence and a
list of accounts into a uniform response. Examples of the sentence are
`DEBIT 500 USD FROM ACCOUNT a1 FOR CREDIT TO ACCOUNT b2 ON 2026-01-31` and
`CREDIT ... TO ACCOUNT ... FOR DEBIT FROM ACCOUNT ...`. The pipeline has six parts:

- **request-shape check** (`RequestValidator`): the JSON body must be an object.
  `accounts` must be a non-empty array of well-formed account records, and
  `instruction` a string that is not blank.
- **tokenizer and grammar** (`Parser`): a character loop collapses whitespace,
  and the result is split on single spaces. The tokens are then matched
  against the fixed eleven-token pattern for each verb, with an optional
  `ON <date>` suffix. The outcome is unparseable, `SY01`, `SY02` or the
  extracted fields.
- **semantic validator** (`Validation`): an ordered, short-circuiting chain of
  business rules (AM01, CU02, AC04, AC02, AC03, CU01, DT01, AC03, AC01). The
  chain fills in a context record as it goes. It uses a digit-only
  positive-integer parser, an account-id character class, a first-match
  account lookup and a calendar-date check.
- **executor** (`Executor`): builds one fresh snapshot for every truthy
  account whose `id` equals either target, in list order. Duplicates are
  kept, so there may be none, one, or more than two. The transfer is then
  either pending, when the date is later than today, or the debit and credit
  are applied to the snapshot balances in place.
- **response formatter** (`Formatter`): a total mapping onto the ten-key
  payload, with `null` defaults.
- **orchestrator** (`Orchestrator`): parse, validate, execute, format. Every
  failure leaves as a thrown application error, modelled as the `Err` variant
  of `Outcome`. It also covers the endpoint's composition of the shape check
  with the pipeline.

Supporting modules:

- `Messages`: the code-to-message table as a constant map.
- `Json`: JSON values, property access, truthiness, `String()`, `Number()` and
  `value || null`.
- `Text`: ASCII trimming and upper-casing, decimal digits, and JavaScript's
  string order.
- `Wrappers`: `Option`.

How the JavaScript is represented:

- `undefined` is `None` and `null` is `Some(Null)` wherever the code tells
  them apart. Snapshot matching on the parser-error path depends on this
  difference.
- Today's date is a parameter.
- Every loop in the source is a `method` with a `while` loop. Its `ensures`
  states that the method computes the specification function, and the
  properties are proved about those functions as lemmas. The same holds for
  the validator's step-by-step context updates, which are a method with early
  returns and no loop of its own. The loops are:
  - whitespace collapsing;
  - the amount digit loop;
  - the id character scan;
  - the account lookup;
  - the date digit scan;
  - snapshot building;
  - the in-place settlement over an `array`;
  - the request account loop.

## Model

| member | source | states |
|---|---|---|
| Messages.Message | messages/payment-instructions.js:1-15 | every code has an entry in the table, the message is that entry, and it is never empty |
| Messages.MessagesTotal | messages/payment-instructions.js:1-15 | the table is total over the closed set of codes |
| Json.NonEmpty | services/payment-instructions/format-response.js:17-22 | `value \|\| null` on a string field: the result is present exactly when the input is a non-empty string, and then it equals the input |
| Text.BlankIffTrimEmpty | core/validator/validator.js:39 | a string trims to `''` exactly when every character is whitespace |
| Text.UpperIsUpper | services/payment-instructions/execute-transaction.js:85 | upper-casing turns each lower-case ASCII letter into its capital (code minus 32), leaves no lower-case letter, and keeps every other character |
| Text.LessTrichotomy | services/payment-instructions/execute-transaction.js:46 | the string order is asymmetric, and total on distinct strings |
| Text.LessIrreflexive | services/payment-instructions/execute-transaction.js:46 | no string is later than itself |
| Text.NatToString | core/validator/validator.js:36 | the rendering of an index is a non-empty digit string whose decimal value is the index |
| Parser.CollapseWhitespace | services/payment-instructions/parse-instruction.js:3-20 | the character loop computes `Collapse`; `null` gives `''`; the output is compact: no tab, LF or CR, no two adjacent spaces, no leading or trailing space |
| Parser.CollapseIsCompact | services/payment-instructions/parse-instruction.js:3-19 | every collapsed string is compact |
| Parser.SplitAtJoin | services/payment-instructions/parse-instruction.js:25 | joining the pieces of a split with single spaces gives back the string |
| Parser.SplitTokensSpec | services/payment-instructions/parse-instruction.js:22-26 | no tokens exactly when the collapsed string is empty; otherwise every token is non-empty and free of whitespace, and the tokens joined by spaces are the collapsed string |
| Parser.SplitTokens | services/payment-instructions/parse-instruction.js:22-26 | no contract of its own: the collapse-then-split it computes is specified by `Parser.SplitTokensSpec` |
| Parser.ParseTokens | services/payment-instructions/parse-instruction.js:28-92 | a syntax error or a success keeps the verb the first token names (ignoring case); a success needs at least eleven tokens |
| Parser.ParseInstruction | services/payment-instructions/parse-instruction.js:28-92 | no contract of its own: the parse is specified by `Parser.ParseInstructionFields`, `Parser.ParseInstructionErrorCodes` and `Parser.BlankIsUnparseable` |
| Parser.ParseUnparseable | services/payment-instructions/parse-instruction.js:29-33 | unparseable exactly when there are no tokens or the first token does not upper-case to `DEBIT` or `CREDIT` |
| Parser.ParseMissingKeyword | services/payment-instructions/parse-instruction.js:35-65 | a recognised verb gives `SY01`, carrying only the verb, exactly when there are fewer than eleven tokens |
| Parser.ParseKeywordOrder | services/payment-instructions/parse-instruction.js:41-75 | with eleven tokens or more, `SY02` exactly when a literal position (3, 4, 6, 7, 8, 9) does not upper-case to the verb's keyword |
| Parser.ParseFields | services/payment-instructions/parse-instruction.js:39-89 | a matching pattern gives the fields: raw amount token 1, currency token 2 upper-cased; `DEBIT` reads the debit id from token 5 and the credit id from token 10, `CREDIT` the reverse; the date is the `ON` suffix |
| Parser.ParseErrorCodes | services/payment-instructions/parse-instruction.js:28-92 | the only error codes are `SY01` and `SY02` |
| Parser.ParseInstructionErrorCodes | services/payment-instructions/parse-instruction.js:28-92 | the same, on a whole instruction string |
| Parser.ParseInstructionFields | services/payment-instructions/parse-instruction.js:39-79 | on a whole instruction a success has a non-empty amount, an upper-cased currency and both ids; the date is token 12 exactly when there are more than twelve tokens and token 11 is `ON`, and later tokens are ignored |
| Parser.ParseFieldsPresent | services/payment-instructions/parse-instruction.js:39-89 | over non-empty tokens a success has at least eleven tokens, a non-empty amount, an upper-cased currency and both ids, and the date exactly when token 11 is `ON` and token 12 exists |
| Parser.BlankIsUnparseable | services/payment-instructions/parse-instruction.js:24-30 | an instruction that collapses to `''` is unparseable |
| Validation.PositiveInteger | services/payment-instructions/validate-instruction.js:148-172 | an accepted amount is greater than 0 |
| Validation.ParsePositiveInteger | services/payment-instructions/validate-instruction.js:148-172 | the digit-accumulating loop computes `PositiveInteger`: missing, blank after trim, a non-digit, or a zero value is rejected |
| Validation.PositiveIntegerRoundTrip | services/payment-instructions/validate-instruction.js:148-172 | the decimal rendering of every positive integer is accepted with that value |
| Validation.PositiveIntegerLeadingZeros | services/payment-instructions/validate-instruction.js:157-166 | `'007'` gives 7 |
| Validation.PositiveIntegerRejects | services/payment-instructions/validate-instruction.js:148-172 | `'0'`, `''`, `'-5'` and `'1.0'` are rejected |
| Validation.NormalizeCurrency | services/payment-instructions/validate-instruction.js:174-177 | a currency is produced exactly when the value is truthy |
| Validation.IsSupportedCurrency | services/payment-instructions/validate-instruction.js:179-181 | a supported currency is one of the four codes, each three capital letters |
| Validation.IsAllowedAccountChar | services/payment-instructions/validate-instruction.js:194-200 | an allowed id character is never whitespace |
| Validation.IsValidAccountId | services/payment-instructions/validate-instruction.js:183-200 | the character scan accepts exactly the present, non-empty ids drawn from A-Z, a-z, 0-9, `-`, `.` and `@` |
| Validation.FindIndex | services/payment-instructions/validate-instruction.js:202-210 | the index found holds the id and no earlier entry does; when none is found, no entry holds it |
| Validation.FindAccount | services/payment-instructions/validate-instruction.js:202-210 | the list scan returns the first truthy account whose `id` is exactly the id string |
| Validation.FindIndexIsFirst | services/payment-instructions/validate-instruction.js:202-210 | the first matching index is the one found |
| Validation.UtcRoundTrip | services/payment-instructions/validate-instruction.js:241-249 | the `Date.UTC` round trip holds exactly for a day within its Gregorian month in a year of at least 100 |
| Validation.DateValueSpec | services/payment-instructions/validate-instruction.js:212-251 | `validateDate` accepts exactly the trimmed strings of length 10 with dashes at 4 and 7, digits elsewhere, month 1..12, day within the month, year at least 100, and returns the trimmed string |
| Validation.AllDigits | services/payment-instructions/validate-instruction.js:253-262 | true exactly for a non-empty all-digit string |
| Validation.ValidateDate | services/payment-instructions/validate-instruction.js:212-251 | the step-by-step date check computes `DateValue` |
| Validation.BalanceNumber | services/payment-instructions/validate-instruction.js:264-271 | a number is read as itself; `null` and `undefined` are NaN; anything else is what `Number` gives, NaN included |
| Validation.Fail | services/payment-instructions/validate-instruction.js:135-146 | a failure carries the code and the context, and a non-empty reason that is the given one when that is non-empty |
| Validation.ValidateFollowsRules | services/payment-instructions/validate-instruction.js:15-121 | valid exactly when every rule holds in the order AM01, CU02, AC04 debit, AC04 credit, AC02, AC03 debit, AC03 credit, CU01, DT01, AC03 balances, AC01; otherwise the code is the first failing rule's |
| Validation.CheckFollowsRules | services/payment-instructions/validate-instruction.js:15-121 | the same over the values the chain computes |
| Validation.AccountRulesFollow | services/payment-instructions/validate-instruction.js:62-121 | once both accounts are found, the currency, date, balance and funds steps fail exactly when one of their rules fails, with the first failing rule's code |
| Validation.FirstFailureAt | services/payment-instructions/validate-instruction.js:15-121 | the chain reports the code of the first rule that does not hold |
| Validation.FirstFailureNone | services/payment-instructions/validate-instruction.js:123-132 | a chain whose rules all hold reports no failure |
| Validation.FirstFailureAppend | services/payment-instructions/validate-instruction.js:15-121 | the first failure of two chains run one after the other is the first chain's, or else the second's |
| Validation.CheckFailureContext | services/payment-instructions/validate-instruction.js:7-121 | what each failure reports, over the computed values: the ids, amount, currency and date of the context; a failed lookup names the missing id and keeps the raw date; a CU01 failure has one of its three reasons; a date, balance or funds failure reports as `Validation.FundsFailureContext` states |
| Validation.CurrenciesFailureContext | services/payment-instructions/validate-instruction.js:62-121 | from the currency rules on, a failure is CU01, DT01, AC03 or AC01 and changes at most the context's date; CU01 keeps the context, with the plain message when an account currency is missing, `<msg>: <debit id>=<cur>, <credit id>=<cur>` when the two differ, and `<msg>: instruction currency <c> differs from account currency <d>` otherwise; the later failures report as `Validation.FundsFailureContext` states |
| Validation.FundsFailureContext | services/payment-instructions/validate-instruction.js:86-121 | DT01 leaves the date `null` with the plain message; AC03 keeps the normalised date and names the side whose balance is NaN, debit first; AC01 keeps the normalised date, holds only when the debit balance is below the amount, and reads `<msg>: <debit id> has <balance>, needs <amount>`; no other context field changes |
| Validation.ValidateFailureContext | services/payment-instructions/validate-instruction.js:7-121 | both ids are as given; AM01 comes exactly from a bad amount, with amount and currency `null` and the raw date; later failures carry the amount and the normalised currency; the date is the raw one on CU02, AC04, AC02, CU01 and lookup (AC03) failures, `null` on DT01, and normalised on balance failures (AC03 after both lookups) and AC01; a failed lookup has the reason `<AC03 message>: <missing id>`, debit side first; the CU01, DT01, AC03-balance and AC01 reasons are those of `Validation.CurrenciesFailureContext` and `Validation.FundsFailureContext`, over the values computed from the inputs |
| Validation.CheckSuccess | services/payment-instructions/validate-instruction.js:115-132 | what a success carries, over the computed values |
| Validation.ValidateSuccess | services/payment-instructions/validate-instruction.js:115-132 | a success carries the parsed amount, a supported currency that both accounts share, two distinct valid ids, the first accounts in list order holding them, the normalised date (a calendar date when present), and a debit balance covering the amount |
| Validation.ValidateInstruction | services/payment-instructions/validate-instruction.js:5-133 | the step-by-step validator, updating its context and returning at the first failure, computes `Validate` |
| Validation.CheckAccounts | services/payment-instructions/validate-instruction.js:62-132 | the currency, date, balance and funds steps compute the chain's tail |
| Executor.SnapshotNumber | services/payment-instructions/execute-transaction.js:76-81 | a number is read as itself; `null`, `undefined` and NaN are 0; anything else is what `Number` gives |
| Executor.SnapshotCurrency | services/payment-instructions/execute-transaction.js:83-86 | a snapshot currency is present exactly when the value is truthy |
| Executor.BuildAccountSnapshots | services/payment-instructions/execute-transaction.js:57-74 | the push loop computes `AccountSnapshots`: `[]` for a non-array, and otherwise one record per truthy targeted account in list order |
| Executor.SnapFields | services/payment-instructions/execute-transaction.js:64-86 | a fresh snapshot copies the id and has equal balances; a missing, `null` or non-numeric balance is 0 and a number is kept; the currency is `null` exactly when falsy, and otherwise is `String(currency)` character by character, with each lower-case letter turned into its capital and every other character kept, not trimmed |
| Executor.SnapshotsAppend | services/payment-instructions/execute-transaction.js:57-73 | the snapshots of a concatenation are the concatenation of the snapshots, so order and duplicate ids are kept |
| Executor.SnapshotsSingle | services/payment-instructions/execute-transaction.js:61-71 | one account gives one snapshot exactly when it is truthy and its id is a target |
| Executor.SnapshotsFresh | services/payment-instructions/execute-transaction.js:64-70 | every snapshot has `balance == balance_before` and belongs to a target, and there are no more snapshots than accounts |
| Executor.SnapshotsNone | services/payment-instructions/execute-transaction.js:63 | no account holding a target id means no snapshots |
| Executor.ShouldDelay | services/payment-instructions/execute-transaction.js:41-47 | a delayed date is present, non-empty, not today and not earlier than today |
| Executor.ExecuteTransaction | services/payment-instructions/execute-transaction.js:3-39 | the executor computes `Execute` |
| Executor.SettleInPlace | services/payment-instructions/execute-transaction.js:23-30 | the in-place loop leaves the array equal to the settled snapshots |
| Executor.SettleEffect | services/payment-instructions/execute-transaction.js:23-30 | settling changes only `balance`: a debit-id snapshot gets `balance_before - amount`, else a credit-id snapshot gets `balance_before + amount`, else nothing changes |
| Executor.ExecutePending | services/payment-instructions/execute-transaction.js:12-21 | when pending: `pending`, `AP02`, 200, the snapshots as built, and every balance unchanged |
| Executor.ExecuteImmediate | services/payment-instructions/execute-transaction.js:23-38 | when not pending: `successful`, `AP00`, 200; each snapshot differs from the built one only in `balance`, which is debited for the debit id (even when it also equals the credit id) and credited otherwise |
| Executor.PendingExactlyWhenLater | services/payment-instructions/execute-transaction.js:41-47 | a present date is pending exactly when it is neither today nor earlier; a date equal to today executes immediately |
| Formatter.Format | services/payment-instructions/format-response.js:1-29 | the formatted response is normal: no string field is `''` and the status is not 0 |
| Formatter.FormatFields | services/payment-instructions/format-response.js:1-29 | status is 200 when absent or 0 and kept otherwise; each of the five string fields is `null` exactly when absent or `''`, and otherwise is the given string; amount, status, reason and code are copied; accounts default to `[]` |
| Formatter.FormatIdempotent | services/payment-instructions/format-response.js:14-28 | formatting a formatted response again changes nothing |
| Formatter.FormatFixedPoint | services/payment-instructions/format-response.js:14-28 | the fixed points of formatting are exactly the responses with no `''` field and a non-zero status |
| Orchestrator.ThrowResponse | services/payment-instructions/process-payment-instruction.js:99-106 | the thrown error's status, code and data are the formatted status, code and payload, and its message is the reason (never empty) |
| Orchestrator.ExtractAmountValue | services/payment-instructions/process-payment-instruction.js:94-97 | the amount is present exactly when it parses as a positive integer |
| Orchestrator.ProcessCoercesAccounts | services/payment-instructions/process-payment-instruction.js:12 | a non-array `accounts` is read as `[]`, and the pipeline runs on `[]` |
| Orchestrator.ProcessCoercesInstruction | services/payment-instructions/process-payment-instruction.js:13-18 | a non-string `instruction` is read as `''`, which takes the unparseable path |
| Orchestrator.Process | services/payment-instructions/process-payment-instruction.js:11-92 | no contract of its own: coercion, then the pipeline; specified by `Orchestrator.ProcessCoercesAccounts`, `Orchestrator.ProcessCoercesInstruction`, `Orchestrator.ProcessBlankInstruction`, `Orchestrator.ProcessSyntaxErrorCodes` and `Orchestrator.ProcessCoherent` |
| Orchestrator.Pipeline | services/payment-instructions/process-payment-instruction.js:16-91 | no contract of its own: one branch per parse outcome; specified by `Orchestrator.PipelineUnparseable`, `Orchestrator.PipelineSyntaxError`, `Orchestrator.PipelineValid` and `Orchestrator.PipelineCoherent` |
| Orchestrator.Conclude | services/payment-instructions/process-payment-instruction.js:55-91 | no contract of its own: the validation failure or the execution; specified by `Orchestrator.ConcludeInvalid` and `Orchestrator.ConcludeValid` |
| Orchestrator.PipelineUnparseable | services/payment-instructions/process-payment-instruction.js:18-32 | unparseable gives an error with 400, `SY03`, its message, every field `null` and `accounts: []` |
| Orchestrator.ProcessBlankInstruction | services/payment-instructions/process-payment-instruction.js:16-18 | a blank instruction takes the unparseable path |
| Orchestrator.PipelineSyntaxError | services/payment-instructions/process-payment-instruction.js:34-48 | a grammar error gives 400 with the parser's code and its message; only the verb is kept; the snapshots are those with undefined targets |
| Orchestrator.SyntaxErrorHasNoSnapshots | services/payment-instructions/process-payment-instruction.js:46 | when every account has an id, a grammar error reports no accounts |
| Orchestrator.ProcessSyntaxErrorCodes | services/payment-instructions/process-payment-instruction.js:34-39 | a grammar error leaves as an error with `SY01` or `SY02` |
| Orchestrator.ConcludeInvalid | services/payment-instructions/process-payment-instruction.js:55-69 | a validation failure gives 400 with the validator's code and reason and its context fields; the snapshots are of accounts whose id equals a context id, or `null` when there is none |
| Orchestrator.ConcludeValid | services/payment-instructions/process-payment-instruction.js:71-91 | a validated transfer returns 200 with the executor's status, code, reason and snapshots, `AP02` exactly when pending and `AP00` otherwise, and the validator's fields |
| Orchestrator.PipelineValid | services/payment-instructions/process-payment-instruction.js:50-91 | a validated instruction is concluded on the validator's own result, whose currency and ids are non-empty |
| Orchestrator.PipelineCoherent | services/payment-instructions/process-payment-instruction.js:18-91 | every exit is coherent: an error exactly when `failed`, exactly when the status is 400; an error's code is its payload's and its message is non-empty |
| Orchestrator.ProcessCoherent | services/payment-instructions/process-payment-instruction.js:11-92 | the same for the whole of `processPaymentInstruction` |
| Orchestrator.BalanceReadsAgree | services/payment-instructions/execute-transaction.js:76-81 | where the validator's `toNumber` (validate-instruction.js:264-271) reads a balance, the executor's reads the same number; where the validator reads NaN, the executor reads 0; a number the request check accepts is read as itself by both |
| Orchestrator.Handle | endpoints/payment-instructions/create-payment-instruction.js:11-44 | no contract of its own: `rc.body \|\| {}`, then the shape check, then the pipeline; specified by `Orchestrator.HandleComposition` |
| Orchestrator.HandleComposition | endpoints/payment-instructions/create-payment-instruction.js:11-44 | a rejected body gives 400 with `SY03`, the shape reason and an all-`null` payload with no accounts; an accepted body runs the pipeline on the same accounts array and the trimmed instruction; a missing or falsy body is rejected for its accounts |
| RequestValidator.IsPlainObject | core/validator/validator.js:54-56 | a plain object is truthy, not `null` and not an array |
| RequestValidator.IsFiniteNumber | core/validator/validator.js:58-60 | a finite number is a present number, which `Number` reads as itself |
| RequestValidator.ValidateAccount | core/validator/validator.js:34-52 | no message exactly when the account is an object, with a non-blank string id, a number balance and a non-blank string currency; otherwise the message of the first failing check in the order object, id, balance, currency: `accounts[<i>] must be an object.`, `accounts[<i>].id must be a non-empty string.`, `accounts[<i>].balance must be a finite number.`, `accounts[<i>].currency must be a non-empty string.`; every message starts with `accounts[<i>]` |
| RequestValidator.FirstInvalidFrom | core/validator/validator.js:12-18 | the index found is in range and its account is malformed |
| RequestValidator.FirstInvalidIsFirst | core/validator/validator.js:12-18 | every account before the index found (all of them when none is) is well formed |
| RequestValidator.ValidatePayload | core/validator/validator.js:2-32 | no contract of its own: specified by `RequestValidator.AcceptedRequest`, `RequestValidator.FirstBadAccountReported` and `RequestValidator.RejectionCauses`, and computed by `RequestValidator.ValidatePaymentInstructionPayload` |
| RequestValidator.ValidatePaymentInstructionPayload | core/validator/validator.js:2-32 | the loop with early return computes `ValidatePayload` |
| RequestValidator.AcceptedRequest | core/validator/validator.js:20-31 | an accepted body is an object whose `accounts` is the same non-empty array, all well formed; the instruction is the trimmed string, non-empty and already trimmed |
| RequestValidator.FirstBadAccountReported | core/validator/validator.js:12-18 | the first malformed account's message is the reason, whatever follows it |
| RequestValidator.RejectionCauses | core/validator/validator.js:2-23 | "Payload must be a JSON object." exactly for a non-object; the instruction message only when every account is well formed and the instruction is blank |

## Left out

- Transport: Express routing, body parsing, the server, logging and timing are not modelled, and neither is the duplicate endpoint under `core/endpoints`. The service it calls is not part of this model.
- The clock: `currentUTCDate` is replaced by a `today` parameter, assumed to be a `YYYY-MM-DD` string.
- JavaScript numbers:
  - numbers are unbounded integers; fractions, NaN and Infinity are not modelled;
  - `Number()` on strings accepts only optionally signed decimal integers, after trimming (`''` is 0); hexadecimal, exponent and fraction forms read as NaN;
  - the executor's `typeof value === 'number'` pass-through of NaN cannot arise;
  - `parsePositiveInteger` is exact above 2^53, where the source loses precision.
- Unicode:
  - `toUpperCase` is ASCII-only, and `trim` removes only space, tab, LF and CR;
  - string order is by character, which agrees with UTF-16 code-unit order on the Basic Multilingual Plane only.
- The `Date` object is replaced by arithmetic: years 0 to 99 map to 1900 + year, and a day past a month's end rolls into the next month.
- Aliasing: accounts are values, so "the caller's records are untouched" holds by construction rather than being proved about a heap. Only the settlement loop works on an `array`, which it creates fresh.
- Strict equality on ids is equality of JSON values. An object or array `id` compared by reference is compared structurally here.
- Orchestrator.Process: takes the request's `accounts` and `instruction` properties directly. A `null` service argument, which makes the source throw a `TypeError`, is not modelled.
- Orchestrator.ConcludeInvalid: states the message only when the validator's reason is non-empty. Every reason the validator builds is non-empty (`Validation.Fail`), but the lemma takes the validation as a parameter.
- Formatter: the payload's ten keys are the fields of the `Payload` datatype, so "exactly ten keys" holds by construction.
