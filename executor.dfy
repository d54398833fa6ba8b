/**
 * The executor: a fresh snapshot of every truthy account whose `id` equals
 * either target, in list order and duplicates included, then either a
 * pending result (the execution date is later than today) or the debit and
 * credit applied to the snapshot balances in place.
 */
module Executor {
  import opened Wrappers
  import opened Text
  import opened Json
  import opened Messages

  /** The three outcomes a response can report. */
  datatype Status = Successful | Pending | Failed

  /**
   * One account as the response shows it. `id` is the account's own `id`
   * property, `undefined` (`None`) when it has none.
   */
  datatype Snapshot = Snapshot(id: Option<Value>, balanceBefore: int, balance: int, currency: Option<string>)

  /** The executor's `toNumber`: a number as is, `null`/`undefined` as 0, otherwise `Number` with NaN as 0. */
  function SnapshotNumber(v: Option<Value>): (r: int)
    ensures v.Some? && v.value.Num? ==> r == v.value.n
    ensures v.None? || v.value.Null? ==> r == 0
    ensures v.Some? && Number(v.value).None? ==> r == 0
    ensures v.Some? && !v.value.Null? && Number(v.value).Some? ==> r == Number(v.value).value
  {
    if v.None? || v.value.Null? then 0 else Number(v.value).GetOr(0)
  }

  /** The executor's `normalizeCurrency`: `null` when falsy, else `String(v)` upper-cased, not trimmed. */
  function SnapshotCurrency(v: Option<Value>): (r: Option<string>)
    ensures r.Some? <==> Present(v)
  {
    if !Present(v) then None else Some(Upper(ToStr(v.value)))
  }

  /** The record pushed for one account: both balances start equal. */
  function Snap(account: Value): Snapshot {
    var balance := SnapshotNumber(Get(account, "balance"));
    Snapshot(Get(account, "id"), balance, balance, SnapshotCurrency(Get(account, "currency")))
  }

  /**
   * A truthy account whose `id` is strictly equal to one of the two targets.
   * A target is itself a possibly undefined value: the orchestrator passes
   * `undefined` after a parser error and `null` for an id the validator
   * reported as `null`.
   */
  predicate Targeted(account: Value, debitId: Option<Value>, creditId: Option<Value>) {
    Truthy(account) && (Get(account, "id") == debitId || Get(account, "id") == creditId)
  }

  /** The snapshots of a list, read from its last element back: one per targeted account, in list order. */
  function Snapshots(list: seq<Value>, debitId: Option<Value>, creditId: Option<Value>): seq<Snapshot> {
    if list == [] then []
    else
      var last := list[|list| - 1];
      Snapshots(list[..|list| - 1], debitId, creditId)
        + (if Targeted(last, debitId, creditId) then [Snap(last)] else [])
  }

  /** `buildAccountSnapshots`: `[]` for a non-array. */
  function AccountSnapshots(accounts: Value, debitId: Option<Value>, creditId: Option<Value>): seq<Snapshot> {
    if accounts.Arr? then Snapshots(accounts.items, debitId, creditId) else []
  }

  /** `buildAccountSnapshots`: one pass over the accounts, pushing a fresh record for each targeted one. */
  method BuildAccountSnapshots(accounts: Value, debitId: Option<Value>, creditId: Option<Value>)
    returns (result: seq<Snapshot>)
    ensures result == AccountSnapshots(accounts, debitId, creditId)
  {
    if !accounts.Arr? {
      return [];
    }
    var list := accounts.items;
    result := [];
    var i := 0;
    while i < |list|
      invariant 0 <= i <= |list|
      invariant result == Snapshots(list[..i], debitId, creditId)
    {
      var account := list[i];
      assert list[..i + 1][..i] == list[..i];
      if Truthy(account) && (Get(account, "id") == debitId || Get(account, "id") == creditId) {
        result := result + [Snap(account)];
      }
      i := i + 1;
    }
    assert list[..i] == list;
  }

  /**
   * A fresh snapshot copies the `id`, starts with both balances equal, reads
   * a missing, `null` or non-numeric balance as 0, and upper-cases a truthy
   * currency without trimming it: each lower-case letter becomes its capital
   * and every other character is kept.
   */
  lemma SnapFields(account: Value)
    ensures var s := Snap(account);
      var balance := Get(account, "balance");
      && s.id == Get(account, "id") && s.balance == s.balanceBefore
      && (balance.None? || balance.value.Null? ==> s.balance == 0)
      && (balance.Some? && balance.value.Num? ==> s.balance == balance.value.n)
      && (balance.Some? && Number(balance.value).None? ==> s.balance == 0)
      && (s.currency.None? <==> !Present(Get(account, "currency")))
      && (s.currency.Some? ==>
            var c := ToStr(Get(account, "currency").value);
            && |s.currency.value| == |c|
            && (forall i :: 0 <= i < |c| ==> !('a' <= s.currency.value[i] <= 'z'))
            && (forall i :: 0 <= i < |c| && 'a' <= c[i] <= 'z' ==> s.currency.value[i] as int == c[i] as int - 32)
            && (forall i :: 0 <= i < |c| && !('a' <= c[i] <= 'z') ==> s.currency.value[i] == c[i]))
  {
    var currency := Get(account, "currency");
    if Present(currency) {
      UpperIsUpper(ToStr(currency.value));
    }
  }

  /** Snapshots of a concatenation are the concatenation of the snapshots: order and duplicates are kept. */
  lemma {:induction false} SnapshotsAppend(a: seq<Value>, b: seq<Value>, debitId: Option<Value>, creditId: Option<Value>)
    ensures Snapshots(a + b, debitId, creditId) == Snapshots(a, debitId, creditId) + Snapshots(b, debitId, creditId)
    decreases |b|
  {
    if b == [] {
      assert a + b == a;
    } else {
      var b' := b[..|b| - 1];
      assert (a + b)[..|a + b| - 1] == a + b';
      assert (a + b)[|a + b| - 1] == b[|b| - 1];
      SnapshotsAppend(a, b', debitId, creditId);
    }
  }

  /** A one-account list has a snapshot exactly when that account is targeted. */
  lemma SnapshotsSingle(account: Value, debitId: Option<Value>, creditId: Option<Value>)
    ensures Snapshots([account], debitId, creditId) == if Targeted(account, debitId, creditId) then [Snap(account)] else []
  {
    assert [account][..0] == [];
  }

  /** Every snapshot is fresh (both balances equal) and belongs to one of the targets. */
  lemma {:induction false} SnapshotsFresh(list: seq<Value>, debitId: Option<Value>, creditId: Option<Value>)
    ensures forall k :: 0 <= k < |Snapshots(list, debitId, creditId)| ==>
      var s := Snapshots(list, debitId, creditId)[k];
      s.balance == s.balanceBefore && (s.id == debitId || s.id == creditId)
    ensures |Snapshots(list, debitId, creditId)| <= |list|
  {
    if list != [] {
      SnapshotsFresh(list[..|list| - 1], debitId, creditId);
    }
  }

  /** With no target present in any account, there are no snapshots (all string ids, `undefined` targets). */
  lemma {:induction false} SnapshotsNone(list: seq<Value>, debitId: Option<Value>, creditId: Option<Value>)
    requires forall k :: 0 <= k < |list| ==> Get(list[k], "id") != debitId && Get(list[k], "id") != creditId
    ensures Snapshots(list, debitId, creditId) == []
  {
    if list != [] {
      SnapshotsNone(list[..|list| - 1], debitId, creditId);
    }
  }

  // ---------------------------------------------------------------- execution

  /** What the executor returns; `httpStatus` is always 200. */
  datatype Execution = Execution(status: Status, statusCode: Code, statusReason: string,
                                 accounts: seq<Snapshot>, httpStatus: int)

  /**
   * `shouldDelayExecution`: a present date later than `today` in string order.
   * A delayed date is never today and never earlier than today.
   */
  predicate ShouldDelay(executeBy: Option<string>, today: string)
    ensures ShouldDelay(executeBy, today) ==>
      executeBy.Some? && executeBy.value != "" && executeBy.value != today && !Less(executeBy.value, today)
  {
    executeBy.Some? && executeBy.value != ""
    && (LessIrreflexive(today); LessTrichotomy(today, executeBy.value); Less(today, executeBy.value))
  }

  /** The loop body: the debit target first, then the credit target, each from `balance_before`. */
  function Adjust(s: Snapshot, debitId: string, creditId: string, amount: int): Snapshot {
    if s.id == Some(Str(debitId)) then s.(balance := s.balanceBefore - amount)
    else if s.id == Some(Str(creditId)) then s.(balance := s.balanceBefore + amount)
    else s
  }

  /** The snapshots after the transfer. */
  function Settle(snapshots: seq<Snapshot>, debitId: string, creditId: string, amount: int): (r: seq<Snapshot>)
    ensures |r| == |snapshots|
  {
    if snapshots == [] then []
    else
      Settle(snapshots[..|snapshots| - 1], debitId, creditId, amount)
        + [Adjust(snapshots[|snapshots| - 1], debitId, creditId, amount)]
  }

  /** `executeTransaction` over validated ids and amount. */
  function Execute(accounts: Value, debitId: string, creditId: string, amount: int,
                   executeBy: Option<string>, today: string): Execution
  {
    var snapshots := AccountSnapshots(accounts, Some(Str(debitId)), Some(Str(creditId)));
    if ShouldDelay(executeBy, today) then Execution(Pending, AP02, Message(AP02), snapshots, 200)
    else Execution(Successful, AP00, Message(AP00), Settle(snapshots, debitId, creditId, amount), 200)
  }

  /**
   * `executeTransaction`: builds the snapshots, returns them untouched when
   * pending, and otherwise adjusts each snapshot's balance in place.
   */
  method ExecuteTransaction(accounts: Value, debitId: string, creditId: string, amount: int,
                            executeBy: Option<string>, today: string) returns (e: Execution)
    ensures e == Execute(accounts, debitId, creditId, amount, executeBy, today)
  {
    var snapshots := BuildAccountSnapshots(accounts, Some(Str(debitId)), Some(Str(creditId)));
    if executeBy.Some? && executeBy.value != "" && Less(today, executeBy.value) {
      return Execution(Pending, AP02, Message(AP02), snapshots, 200);
    }
    var a := new Snapshot[|snapshots|](k requires 0 <= k < |snapshots| => snapshots[k]);
    assert a[..] == snapshots;
    SettleInPlace(a, debitId, creditId, amount);
    return Execution(Successful, AP00, Message(AP00), a[..], 200);
  }

  /** The settlement loop of `executeTransaction`, assigning `balance` on each record in turn. */
  method SettleInPlace(a: array<Snapshot>, debitId: string, creditId: string, amount: int)
    modifies a
    ensures a[..] == Settle(old(a[..]), debitId, creditId, amount)
  {
    ghost var snapshots := a[..];
    var i := 0;
    while i < a.Length
      invariant 0 <= i <= a.Length
      invariant a[..i] == Settle(snapshots[..i], debitId, creditId, amount)
      invariant forall k :: i <= k < a.Length ==> a[k] == snapshots[k]
    {
      var account := a[i];
      assert snapshots[..i + 1][..i] == snapshots[..i];
      if account.id == Some(Str(debitId)) {
        a[i] := account.(balance := account.balanceBefore - amount);
      } else if account.id == Some(Str(creditId)) {
        a[i] := account.(balance := account.balanceBefore + amount);
      }
      assert a[..i + 1] == a[..i] + [a[i]];
      i := i + 1;
    }
    assert snapshots[..i] == snapshots;
    assert a[..i] == a[..];
  }

  /** Settling changes only `balance`: the debit target's is debited, else the credit target's credited. */
  lemma {:induction false} SettleEffect(snapshots: seq<Snapshot>, debitId: string, creditId: string, amount: int)
    ensures var r := Settle(snapshots, debitId, creditId, amount);
      forall k :: 0 <= k < |snapshots| ==>
        && r[k].id == snapshots[k].id && r[k].balanceBefore == snapshots[k].balanceBefore
        && r[k].currency == snapshots[k].currency
        && r[k].balance == (if snapshots[k].id == Some(Str(debitId)) then snapshots[k].balanceBefore - amount
                            else if snapshots[k].id == Some(Str(creditId)) then snapshots[k].balanceBefore + amount
                            else snapshots[k].balance)
  {
    if snapshots != [] {
      SettleEffect(snapshots[..|snapshots| - 1], debitId, creditId, amount);
    }
  }

  /** A pending transfer reports `AP02` with every snapshot as built: no balance moves. */
  lemma ExecutePending(accounts: Value, debitId: string, creditId: string, amount: int,
                       executeBy: Option<string>, today: string)
    requires ShouldDelay(executeBy, today)
    ensures var e := Execute(accounts, debitId, creditId, amount, executeBy, today);
      && e.status == Pending && e.statusCode == AP02 && e.httpStatus == 200
      && e.accounts == AccountSnapshots(accounts, Some(Str(debitId)), Some(Str(creditId)))
      && forall k :: 0 <= k < |e.accounts| ==> e.accounts[k].balance == e.accounts[k].balanceBefore
  {
    if accounts.Arr? {
      SnapshotsFresh(accounts.items, Some(Str(debitId)), Some(Str(creditId)));
    }
  }

  /**
   * An immediate transfer reports `AP00`. Each debit snapshot ends at
   * `balance_before - amount`, each other credit snapshot at
   * `balance_before + amount`; a snapshot matching both ids is only debited.
   */
  lemma ExecuteImmediate(accounts: Value, debitId: string, creditId: string, amount: int,
                         executeBy: Option<string>, today: string)
    requires !ShouldDelay(executeBy, today)
    ensures var e := Execute(accounts, debitId, creditId, amount, executeBy, today);
      var built := AccountSnapshots(accounts, Some(Str(debitId)), Some(Str(creditId)));
      && e.status == Successful && e.statusCode == AP00 && e.httpStatus == 200
      && |e.accounts| == |built|
      && forall k :: 0 <= k < |built| ==>
        && e.accounts[k] == built[k].(balance := e.accounts[k].balance)
        && e.accounts[k].balance == (if built[k].id == Some(Str(debitId)) then built[k].balanceBefore - amount
                                     else built[k].balanceBefore + amount)
  {
    var built := AccountSnapshots(accounts, Some(Str(debitId)), Some(Str(creditId)));
    SettleEffect(built, debitId, creditId, amount);
    if accounts.Arr? {
      SnapshotsFresh(accounts.items, Some(Str(debitId)), Some(Str(creditId)));
    }
  }

  /**
   * A present date is pending exactly when it is neither today nor earlier
   * than today: a date equal to today executes immediately.
   */
  lemma PendingExactlyWhenLater(executeBy: string, today: string)
    ensures !ShouldDelay(Some(today), today)
    ensures executeBy != "" ==> (ShouldDelay(Some(executeBy), today) <==> executeBy != today && !Less(executeBy, today))
  {
    LessIrreflexive(today);
    LessTrichotomy(executeBy, today);
  }
}
