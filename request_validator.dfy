/**
 * The request-shape check that runs before the pipeline: the body is an
 * object, `accounts` a non-empty array of well-formed account records, and
 * `instruction` a string that is not blank.
 */
module RequestValidator {
  import opened Wrappers
  import opened Text
  import opened Json

  /** `isPlainObject`: not `null`, not an array, not a primitive. */
  predicate IsPlainObject(v: Value)
    ensures IsPlainObject(v) ==> Truthy(v) && !v.Null? && !v.Arr?
  {
    v.Obj?
  }

  /** `isFiniteNumber`: a number; a numeric string is not one. */
  predicate IsFiniteNumber(v: Option<Value>)
    ensures IsFiniteNumber(v) ==> v.Some? && v.value.Num? && Number(v.value) == Some(v.value.n)
  {
    v.Some? && v.value.Num?
  }

  /** `typeof v === 'string' && v.trim() !== ''` (see `BlankIffTrimEmpty`). */
  predicate IsNonBlankString(v: Option<Value>) {
    v.Some? && v.value.Str? && !IsBlank(v.value.s)
  }

  /** An account record every field check accepts. */
  predicate WellFormed(account: Value) {
    && IsPlainObject(account)
    && IsNonBlankString(Get(account, "id"))
    && IsFiniteNumber(Get(account, "balance"))
    && IsNonBlankString(Get(account, "currency"))
  }

  /**
   * `validateAccount`: the first failing check's message, naming the index, or
   * `null`. The checks run in the order object, `id`, `balance`, `currency`.
   */
  function ValidateAccount(account: Value, index: nat): (r: Option<string>)
    ensures r.None? <==> WellFormed(account)
    ensures r.Some? ==> r.value != "" && "accounts[" + NatToString(index) + "]" <= r.value
    ensures var at := "accounts[" + NatToString(index) + "]";
      && (!IsPlainObject(account) ==> r == Some(at + " must be an object."))
      && (IsPlainObject(account) && !IsNonBlankString(Get(account, "id")) ==>
            r == Some(at + ".id must be a non-empty string."))
      && (IsPlainObject(account) && IsNonBlankString(Get(account, "id"))
          && !IsFiniteNumber(Get(account, "balance")) ==>
            r == Some(at + ".balance must be a finite number."))
      && (IsPlainObject(account) && IsNonBlankString(Get(account, "id"))
          && IsFiniteNumber(Get(account, "balance")) && !IsNonBlankString(Get(account, "currency")) ==>
            r == Some(at + ".currency must be a non-empty string."))
  {
    var at := "accounts[" + NatToString(index) + "]";
    if !IsPlainObject(account) then Some(at + " must be an object.")
    else if !IsNonBlankString(Get(account, "id")) then Some(at + ".id must be a non-empty string.")
    else if !IsFiniteNumber(Get(account, "balance")) then Some(at + ".balance must be a finite number.")
    else if !IsNonBlankString(Get(account, "currency")) then Some(at + ".currency must be a non-empty string.")
    else None
  }

  /** The index of the first malformed account at or after `from`. */
  function FirstInvalidFrom(accounts: seq<Value>, from: nat): (r: Option<nat>)
    requires from <= |accounts|
    ensures r.Some? ==> from <= r.value < |accounts| && !WellFormed(accounts[r.value])
    decreases |accounts| - from
  {
    if from == |accounts| then None
    else if !WellFormed(accounts[from]) then Some(from)
    else FirstInvalidFrom(accounts, from + 1)
  }

  /** The index found is the first malformed one: every account before it, from `from` on, is well formed. */
  lemma {:induction false} FirstInvalidIsFirst(accounts: seq<Value>, from: nat)
    requires from <= |accounts|
    ensures var r := FirstInvalidFrom(accounts, from);
      forall k :: from <= k < |accounts| && (r.None? || k < r.value) ==> WellFormed(accounts[k])
    decreases |accounts| - from
  {
    if from < |accounts| && WellFormed(accounts[from]) {
      FirstInvalidIsFirst(accounts, from + 1);
    }
  }

  /** The checked request: a reason, or the accounts array and the trimmed instruction. */
  datatype Checked = Rejected(reason: string) | Accepted(accounts: seq<Value>, instruction: string)

  const NotAnObject := "Payload must be a JSON object."
  const NoAccounts := "accounts must be a non-empty array."
  const NoInstruction := "instruction must be a non-empty string."

  /** The trimmed instruction, or `''` when it is not a string. */
  function InstructionText(payload: Value): string {
    var v := Get(payload, "instruction");
    if v.Some? && v.value.Str? then Trim(v.value.s) else ""
  }

  /** `validatePaymentInstructionPayload`. */
  function ValidatePayload(payload: Value): Checked {
    if !IsPlainObject(payload) then Rejected(NotAnObject)
    else
      var accounts := Get(payload, "accounts");
      if accounts.None? || !accounts.value.Arr? || |accounts.value.items| == 0 then Rejected(NoAccounts)
      else
        var items := accounts.value.items;
        var bad := FirstInvalidFrom(items, 0);
        if bad.Some? then Rejected(ValidateAccount(items[bad.value], bad.value).value)
        else if InstructionText(payload) == "" then Rejected(NoInstruction)
        else Accepted(items, InstructionText(payload))
  }

  /** `validatePaymentInstructionPayload`: the account loop returns on the first error. */
  method ValidatePaymentInstructionPayload(payload: Value) returns (r: Checked)
    ensures r == ValidatePayload(payload)
  {
    if !IsPlainObject(payload) {
      return Rejected(NotAnObject);
    }
    var accounts := Get(payload, "accounts");
    if accounts.None? || !accounts.value.Arr? || |accounts.value.items| == 0 {
      return Rejected(NoAccounts);
    }
    var items := accounts.value.items;
    var i := 0;
    while i < |items|
      invariant 0 <= i <= |items|
      invariant FirstInvalidFrom(items, 0) == FirstInvalidFrom(items, i)
    {
      var error := ValidateAccount(items[i], i);
      if error.Some? {
        return Rejected(error.value);
      }
      i := i + 1;
    }
    var v := Get(payload, "instruction");
    var instruction := if v.Some? && v.value.Str? then Trim(v.value.s) else "";
    if instruction == "" {
      return Rejected(NoInstruction);
    }
    return Accepted(items, instruction);
  }

  /**
   * An accepted request has the same accounts array it came with, every
   * account well formed, and a non-blank trimmed instruction string.
   */
  lemma AcceptedRequest(payload: Value)
    requires ValidatePayload(payload).Accepted?
    ensures var r := ValidatePayload(payload);
      && IsPlainObject(payload)
      && Get(payload, "accounts") == Some(Arr(r.accounts))
      && |r.accounts| > 0
      && (forall k :: 0 <= k < |r.accounts| ==> WellFormed(r.accounts[k]))
      && (exists s :: Get(payload, "instruction") == Some(Str(s)) && r.instruction == Trim(s))
      && r.instruction != "" && r.instruction == Trim(r.instruction)
  {
    var accounts := Get(payload, "accounts");
    var items := accounts.value.items;
    assert FirstInvalidFrom(items, 0).None?;
    FirstInvalidIsFirst(items, 0);
    var v := Get(payload, "instruction");
    assert v.Some? && v.value.Str?;
    var text := v.value.s;
    assert ValidatePayload(payload) == Accepted(items, Trim(text));
    TrimOfTrimmed(Trim(text));
  }

  /**
   * Accounts are checked in index order: the first malformed one decides
   * the reason, whatever comes after it and whatever the instruction is.
   */
  lemma FirstBadAccountReported(payload: Value, i: nat)
    requires IsPlainObject(payload)
    requires Get(payload, "accounts").Some? && Get(payload, "accounts").value.Arr?
    requires i < |Get(payload, "accounts").value.items|
    requires var items := Get(payload, "accounts").value.items;
      !WellFormed(items[i]) && forall k :: 0 <= k < i ==> WellFormed(items[k])
    ensures ValidatePayload(payload) == Rejected(ValidateAccount(Get(payload, "accounts").value.items[i], i).value)
  {
    var items := Get(payload, "accounts").value.items;
    FirstInvalidIsFirst(items, 0);
    var bad := FirstInvalidFrom(items, 0);
    assert bad.Some? && bad.value == i;
  }

  /** A rejection names exactly one cause; the instruction is looked at only once every account passes. */
  lemma RejectionCauses(payload: Value)
    requires ValidatePayload(payload).Rejected?
    ensures var reason := ValidatePayload(payload).reason;
      && (reason == NotAnObject <==> !IsPlainObject(payload))
      && (reason == NoInstruction ==>
            && IsPlainObject(payload)
            && (forall k :: 0 <= k < |Get(payload, "accounts").value.items| ==> WellFormed(Get(payload, "accounts").value.items[k]))
            && InstructionText(payload) == "")
  {
    var reason := ValidatePayload(payload).reason;
    if IsPlainObject(payload) {
      var accounts := Get(payload, "accounts");
      if !(accounts.None? || !accounts.value.Arr? || |accounts.value.items| == 0) {
        var items := accounts.value.items;
        var bad := FirstInvalidFrom(items, 0);
        FirstInvalidIsFirst(items, 0);
        if bad.Some? {
          var at := "accounts[" + NatToString(bad.value) + "]";
          assert reason[0] == at[0] == 'a';
        }
      }
    }
  }
}
