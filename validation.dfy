/**
 * The semantic validator: an ordered chain of business rules over the parsed
 * fields and the caller's accounts. The first rule that fails decides the
 * code, and the failure reports the context gathered so far.
 */
module Validation {
  import opened Wrappers
  import opened Text
  import opened Json
  import opened Messages
  import opened Parser

  const SupportedCurrencies: seq<string> := ["NGN", "USD", "GBP", "GHS"]

  // ---------------------------------------------------------------- amount

  /** The value `parsePositiveInteger` accepts: a trimmed, non-empty digit string of positive value. */
  function PositiveInteger(value: Option<string>): (r: Option<nat>)
    ensures r.Some? ==> r.value > 0
  {
    if value.None? then None
    else
      var str := Trim(value.value);
      if !DigitString(str) || DecimalValue(str) == 0 then None
      else Some(DecimalValue(str))
  }

  /** `parsePositiveInteger`: a digit loop accumulating `result * 10 + digit`. */
  method ParsePositiveInteger(value: Option<string>) returns (r: Option<nat>)
    ensures r == PositiveInteger(value)
  {
    if value.None? {
      return None;
    }
    var str := Trim(value.value);
    if str == "" {
      return None;
    }
    var result: nat := 0;
    var i := 0;
    while i < |str|
      invariant 0 <= i <= |str|
      invariant forall j :: 0 <= j < i ==> IsDigit(str[j])
      invariant result == DecimalValue(str[..i])
    {
      var ch := str[i];
      if ch < '0' || ch > '9' {
        return None;
      }
      assert str[..i + 1][..i] == str[..i];
      result := result * 10 + (ch as int - 48);
      i := i + 1;
    }
    assert str[..i] == str;
    if result <= 0 {
      return None;
    }
    return Some(result);
  }

  /** Rendering a positive number in decimal and parsing it back gives the number. */
  lemma PositiveIntegerRoundTrip(n: nat)
    requires n > 0
    ensures PositiveInteger(Some(NatToString(n))) == Some(n)
  {
    var s := NatToString(n);
    assert !IsWhitespace(s[0]) && !IsWhitespace(s[|s| - 1]);
    TrimOfTrimmed(s);
  }

  /** Leading zeros are accepted: '007' is 7. */
  lemma PositiveIntegerLeadingZeros()
    ensures PositiveInteger(Some("007")) == Some(7)
  {
    TrimOfTrimmed("007");
    assert "007"[..2] == "00" && "00"[..1] == "0" && "0"[..0] == "";
    assert DecimalValue("007") == 7;
  }

  /** Zero, the empty string, a sign and a decimal point are rejected. */
  lemma PositiveIntegerRejects()
    ensures PositiveInteger(Some("0")) == None
    ensures PositiveInteger(Some("")) == None
    ensures PositiveInteger(Some("-5")) == None
    ensures PositiveInteger(Some("1.0")) == None
  {
    TrimOfTrimmed("0");
    assert "0"[..0] == "";
    TrimOfTrimmed("-5");
    assert !IsDigit("-5"[0]);
    TrimOfTrimmed("1.0");
    assert !IsDigit("1.0"[1]);
  }

  // ---------------------------------------------------------------- currency and account ids

  /** The validator's `normalizeCurrency`: `null` when falsy, else `String(v)` trimmed and upper-cased. */
  function NormalizeCurrency(v: Option<Value>): (r: Option<string>)
    ensures r.Some? <==> Present(v)
  {
    if !Present(v) then None else Some(Upper(Trim(ToStr(v.value))))
  }

  /** A string-or-null field as a JavaScript value. */
  function FromOption(o: Option<string>): Option<Value> {
    if o.None? then None else Some(Str(o.value))
  }

  /** One of the four supported codes, each three capital letters. */
  predicate IsSupportedCurrency(currency: string)
    ensures IsSupportedCurrency(currency) ==>
      |currency| == 3 && forall i :: 0 <= i < |currency| ==> 'A' <= currency[i] <= 'Z'
  {
    currency in SupportedCurrencies
  }

  /** Digits, ASCII letters, `-`, `.` and `@`; never whitespace. */
  predicate IsAllowedAccountChar(ch: char)
    ensures IsAllowedAccountChar(ch) ==> !IsWhitespace(ch)
  {
    ('0' <= ch <= '9') || ('A' <= ch <= 'Z') || ('a' <= ch <= 'z') || ch == '-' || ch == '.' || ch == '@'
  }

  /** A present, non-empty id drawn only from the allowed characters. */
  predicate ValidAccountId(id: Option<string>) {
    id.Some? && id.value != "" && forall i :: 0 <= i < |id.value| ==> IsAllowedAccountChar(id.value[i])
  }

  /** `isValidAccountId`: rejects a missing id, then scans the characters. */
  method IsValidAccountId(id: Option<string>) returns (ok: bool)
    ensures ok <==> ValidAccountId(id)
  {
    if id.None? || id.value == "" {
      return false;
    }
    var s := id.value;
    var i := 0;
    while i < |s|
      invariant 0 <= i <= |s|
      invariant forall j :: 0 <= j < i ==> IsAllowedAccountChar(s[j])
    {
      if !IsAllowedAccountChar(s[i]) {
        return false;
      }
      i := i + 1;
    }
    return true;
  }

  // ---------------------------------------------------------------- account lookup

  /** `account && account.id === id`. */
  predicate HoldsId(account: Value, id: string) {
    Truthy(account) && Get(account, "id") == Some(Str(id))
  }

  /** The index of the first account in list order holding `id`. */
  function FindIndex(accounts: seq<Value>, id: string): (r: Option<nat>)
    ensures r.Some? ==> r.value < |accounts| && HoldsId(accounts[r.value], id)
    ensures r.Some? ==> forall j :: 0 <= j < r.value ==> !HoldsId(accounts[j], id)
    ensures r.None? ==> forall j :: 0 <= j < |accounts| ==> !HoldsId(accounts[j], id)
  {
    if accounts == [] then None
    else if HoldsId(accounts[0], id) then Some(0)
    else
      var rest := FindIndex(accounts[1..], id);
      if rest.None? then None else Some(rest.value + 1)
  }

  /** The first account holding `id`, or `null`. */
  function Find(accounts: seq<Value>, id: string): Option<Value> {
    var k := FindIndex(accounts, id);
    if k.None? then None else Some(accounts[k.value])
  }

  /** `findAccount`: a scan in index order that returns the first account holding `id`. */
  method FindAccount(accounts: seq<Value>, id: string) returns (r: Option<Value>)
    ensures r == Find(accounts, id)
    ensures r.Some? ==> HoldsId(r.value, id)
  {
    var i := 0;
    while i < |accounts|
      invariant 0 <= i <= |accounts|
      invariant forall j :: 0 <= j < i ==> !HoldsId(accounts[j], id)
    {
      var account := accounts[i];
      if Truthy(account) && Get(account, "id") == Some(Str(id)) {
        FindIndexIsFirst(accounts, id, i);
        return Some(account);
      }
      i := i + 1;
    }
    return None;
  }

  /** An account holding `id` with none before it is the one found. */
  lemma FindIndexIsFirst(accounts: seq<Value>, id: string, i: nat)
    requires i < |accounts| && HoldsId(accounts[i], id)
    requires forall j :: 0 <= j < i ==> !HoldsId(accounts[j], id)
    ensures FindIndex(accounts, id) == Some(i)
  {
    var k := FindIndex(accounts, id);
    assert k.Some?;
    assert !(k.value < i) && !(i < k.value);
  }

  // ---------------------------------------------------------------- dates

  predicate IsLeapYear(y: int) {
    (y % 4 == 0 && y % 100 != 0) || y % 400 == 0
  }

  /** Days in month `m` (1..12) of year `y` in the Gregorian calendar. */
  function DaysInMonth(y: int, m: int): int {
    if m == 2 then (if IsLeapYear(y) then 29 else 28)
    else if m == 4 || m == 6 || m == 9 || m == 11 then 30
    else 31
  }

  /** The year `Date.UTC` uses: years 0 to 99 are read as 1900 to 1999. */
  function UtcFullYear(y: int): int {
    if 0 <= y <= 99 then 1900 + y else y
  }

  /**
   * Year, month index and day read back from `new Date(Date.UTC(y, m - 1, d))`
   * for `1 <= m <= 12` and `1 <= d <= 31`: a day past the month's end rolls
   * into the following month.
   */
  function UtcDate(y: int, m: int, d: int): (int, int, int) {
    var fy := UtcFullYear(y);
    if d <= DaysInMonth(fy, m) then (fy, m - 1, d)
    else if m == 12 then (fy + 1, 0, d - 31)
    else (fy, m, d - DaysInMonth(fy, m))
  }

  /** The year, month and day fields of a `YYYY-MM-DD` string. */
  function DateFields(t: string): (int, int, int)
    requires |t| == 10 && DigitString(t[0..4]) && DigitString(t[5..7]) && DigitString(t[8..10])
  {
    (DecimalValue(t[0..4]), DecimalValue(t[5..7]), DecimalValue(t[8..10]))
  }

  /** `validateDate`, written as the source checks it: shape, ranges, then the `Date.UTC` round trip. */
  function DateValue(value: string): Option<string> {
    if value == "" then None
    else
      var t := Trim(value);
      if |t| != 10 then None
      else if t[4] != '-' || t[7] != '-' then None
      else if !(DigitString(t[0..4]) && DigitString(t[5..7]) && DigitString(t[8..10])) then None
      else
        var (y, m, d) := DateFields(t);
        if m < 1 || m > 12 then None
        else if d < 1 || d > 31 then None
        else if UtcDate(y, m, d) != (y, m - 1, d) then None
        else Some(t)
  }

  /**
   * A real calendar date in `YYYY-MM-DD` form: dashes at 4 and 7, digits
   * elsewhere, month 1..12, day within the month, and a year of at least 100.
   */
  predicate IsCalendarDate(t: string) {
    && |t| == 10 && t[4] == '-' && t[7] == '-'
    && DigitString(t[0..4]) && DigitString(t[5..7]) && DigitString(t[8..10])
    && var (y, m, d) := DateFields(t);
      1 <= m <= 12 && 1 <= d <= DaysInMonth(y, m) && y >= 100
  }

  /** The `Date.UTC` round trip holds exactly for a day within its month of a year from 100 on. */
  lemma UtcRoundTrip(y: int, m: int, d: int)
    requires y >= 0 && 1 <= m <= 12 && 1 <= d <= 31
    ensures UtcDate(y, m, d) == (y, m - 1, d) <==> d <= DaysInMonth(y, m) && y >= 100
  {
    if y <= 99 {
      assert UtcDate(y, m, d).0 >= 1900 + y;
    } else {
      assert UtcFullYear(y) == y;
    }
  }

  /** `validateDate` accepts exactly the calendar dates, and returns the trimmed string. */
  lemma DateValueSpec(value: string)
    ensures DateValue(value) == (if value != "" && IsCalendarDate(Trim(value)) then Some(Trim(value)) else None)
  {
    var t := Trim(value);
    if value != "" && |t| == 10 && t[4] == '-' && t[7] == '-'
       && DigitString(t[0..4]) && DigitString(t[5..7]) && DigitString(t[8..10]) {
      var (y, m, d) := DateFields(t);
      if 1 <= m <= 12 && 1 <= d <= 31 {
        UtcRoundTrip(y, m, d);
      }
    }
  }

  /** `allDigits`: false for '', otherwise a scan for a non-digit. */
  method AllDigits(s: string) returns (ok: bool)
    ensures ok <==> DigitString(s)
  {
    if s == "" {
      return false;
    }
    var i := 0;
    while i < |s|
      invariant 0 <= i <= |s|
      invariant forall j :: 0 <= j < i ==> IsDigit(s[j])
    {
      if s[i] < '0' || s[i] > '9' {
        return false;
      }
      i := i + 1;
    }
    return true;
  }

  /** `validateDate`, calling the digit scan for each field. */
  method ValidateDate(value: string) returns (r: Option<string>)
    ensures r == DateValue(value)
  {
    if value == "" {
      return None;
    }
    var t := Trim(value);
    if |t| != 10 {
      return None;
    }
    if t[4] != '-' || t[7] != '-' {
      return None;
    }
    var yearOk := AllDigits(t[0..4]);
    var monthOk := AllDigits(t[5..7]);
    var dayOk := AllDigits(t[8..10]);
    if !(yearOk && monthOk && dayOk) {
      return None;
    }
    var (y, m, d) := DateFields(t);
    if m < 1 || m > 12 {
      return None;
    }
    if d < 1 || d > 31 {
      return None;
    }
    if UtcDate(y, m, d) != (y, m - 1, d) {
      return None;
    }
    return Some(t);
  }

  // ---------------------------------------------------------------- balances

  /** The validator's `toNumber`: `null` and `undefined` are NaN (`None`), anything else goes through `Number`. */
  function BalanceNumber(v: Option<Value>): (r: Option<int>)
    ensures v.Some? && v.value.Num? ==> r == Some(v.value.n)
    ensures v.None? || v.value.Null? ==> r.None?
    ensures v.Some? && !v.value.Null? ==> r == Number(v.value)
  {
    if v.None? || v.value.Null? then None else Number(v.value)
  }

  /** `${v}` for a possibly undefined value. */
  function Interpolate(v: Option<Value>): string {
    if v.None? then "undefined" else ToStr(v.value)
  }

  // ---------------------------------------------------------------- the rule chain

  /** The fields every rule may fill in; unevaluated ones stay `null`. */
  datatype Context = Context(amount: Option<nat>, currency: Option<string>,
                             debitAccountId: Option<string>, creditAccountId: Option<string>,
                             executeBy: Option<string>)

  /** A failure with its code, reason and context, or the fully validated transfer. */
  datatype Validation =
    | Invalid(code: Code, reason: string, context: Context)
    | Valid(amount: nat, currency: string, debitAccountId: string, creditAccountId: string,
            executeBy: Option<string>, debitAccount: Value, creditAccount: Value)

  /** `fail`: the reason falls back to the code's message when empty. */
  function Fail(code: Code, defaultReason: string, context: Context): (r: Validation)
    ensures r.Invalid? && r.code == code && r.context == context && r.reason != ""
    ensures defaultReason != "" ==> r.reason == defaultReason
  {
    Invalid(code, if defaultReason != "" then defaultReason else Message(code), context)
  }

  /** `Array.isArray(accounts) ? accounts : []`. */
  function AccountList(accounts: Value): seq<Value> {
    if accounts.Arr? then accounts.items else []
  }

  /** `!c` for a string-or-null. */
  predicate Blank(c: Option<string>) {
    c.None? || c.value == ""
  }

  /** The normalised `executeBy`: `null` without a date, otherwise the date check's value. */
  function ScheduledDate(onDate: Option<string>): Option<string> {
    if onDate.None? then None else DateValue(onDate.value)
  }

  /** `findAccount` for an id that may be `null` (no account holds `null`). */
  function LookUp(list: seq<Value>, id: Option<string>): Option<Value> {
    if id.Some? then Find(list, id.value) else None
  }

  /** `normalizeCurrency(account.currency)` for an account that may be missing. */
  function AccountCurrency(account: Option<Value>): Option<string> {
    if account.Some? then NormalizeCurrency(Get(account.value, "currency")) else None
  }

  /** `toNumber(account.balance)`, `None` standing for NaN, for an account that may be missing. */
  function AccountBalance(account: Option<Value>): Option<int> {
    if account.Some? then BalanceNumber(Get(account.value, "balance")) else None
  }

  /**
   * Every value `validateInstruction` computes from its inputs on the way: the
   * normalised instruction fields, the two accounts found, their currencies,
   * the normalised date and the two balances. Each is a pure function of the
   * inputs; the chain reads each one only once the rules before it passed.
   */
  datatype Facts = Facts(
    amount: Option<nat>, currency: Option<string>,
    debitId: Option<string>, creditId: Option<string>, onDate: Option<string>,
    debitAccount: Option<Value>, creditAccount: Option<Value>,
    debitCurrency: Option<string>, creditCurrency: Option<string>,
    executeBy: Option<string>, debitBalance: Option<int>, creditBalance: Option<int>)

  function Derive(p: Parsed, accounts: Value): Facts
    requires p.Instruction?
  {
    var list := AccountList(accounts);
    var debitAccount := LookUp(list, NonEmpty(p.debitAccountId));
    var creditAccount := LookUp(list, NonEmpty(p.creditAccountId));
    Facts(PositiveInteger(Some(p.amount)), NormalizeCurrency(FromOption(p.currency)),
          NonEmpty(p.debitAccountId), NonEmpty(p.creditAccountId), NonEmpty(p.onDate),
          debitAccount, creditAccount, AccountCurrency(debitAccount), AccountCurrency(creditAccount),
          ScheduledDate(NonEmpty(p.onDate)), AccountBalance(debitAccount), AccountBalance(creditAccount))
  }

  /** `validateInstruction`: the rules in the source's order, each failing with the context gathered so far. */
  function Validate(p: Parsed, accounts: Value): Validation
    requires p.Instruction?
  {
    Check(Derive(p, accounts))
  }

  /** The chain of `validateInstruction` over the values it computes. */
  function Check(f: Facts): Validation {
    var initial := Context(None, None, f.debitId, f.creditId, f.onDate);
    if f.amount.None? then Fail(AM01, Message(AM01), initial)
    else
      var context := initial.(amount := f.amount, currency := f.currency);
      if Blank(f.currency) then Fail(CU02, Message(CU02), context)
      else if !IsSupportedCurrency(f.currency.value) then Fail(CU02, Message(CU02), context)
      else if !ValidAccountId(f.debitId) then Fail(AC04, Message(AC04), context)
      else if !ValidAccountId(f.creditId) then Fail(AC04, Message(AC04), context)
      else if f.debitId == f.creditId then Fail(AC02, Message(AC02), context)
      else if f.debitAccount.None? then Fail(AC03, Message(AC03) + ": " + f.debitId.value, context)
      else if f.creditAccount.None? then Fail(AC03, Message(AC03) + ": " + f.creditId.value, context)
      else CheckCurrencies(f, context)
  }

  /** The currency rules on the two accounts found. */
  function CheckCurrencies(f: Facts, context: Context): Validation
    requires f.debitAccount.Some? && f.creditAccount.Some? && f.amount.Some? && !Blank(f.currency)
    requires f.debitId.Some? && f.creditId.Some?
  {
    var debitCurrency := f.debitCurrency;
    var creditCurrency := f.creditCurrency;
    if Blank(debitCurrency) || Blank(creditCurrency) then Fail(CU01, Message(CU01), context)
    else if debitCurrency.value != creditCurrency.value then
      Fail(CU01, Message(CU01) + ": " + Interpolate(Get(f.debitAccount.value, "id")) + "=" + debitCurrency.value
                 + ", " + Interpolate(Get(f.creditAccount.value, "id")) + "=" + creditCurrency.value, context)
    else if debitCurrency.value != f.currency.value then
      Fail(CU01, Message(CU01) + ": instruction currency " + f.currency.value
                 + " differs from account currency " + debitCurrency.value, context)
    else CheckFunds(f, context)
  }

  /** The date rule, then the balances and the funds. */
  function CheckFunds(f: Facts, context: Context): Validation
    requires f.debitAccount.Some? && f.creditAccount.Some? && f.amount.Some? && !Blank(f.currency)
    requires f.debitId.Some? && f.creditId.Some?
  {
    if f.onDate.Some? && f.executeBy.None? then Fail(DT01, Message(DT01), context.(executeBy := None))
    else
      var context := context.(executeBy := f.executeBy);
      if f.debitBalance.None? then
        Fail(AC03, Message(AC03) + ": invalid balance for debit account", context)
      else if f.creditBalance.None? then
        Fail(AC03, Message(AC03) + ": invalid balance for credit account", context)
      else if f.debitBalance.value < f.amount.value then
        Fail(AC01, Message(AC01) + ": " + Interpolate(Get(f.debitAccount.value, "id")) + " has "
                   + IntToString(f.debitBalance.value) + ", needs " + NatToString(f.amount.value), context)
      else
        Valid(f.amount.value, f.currency.value, f.debitId.value, f.creditId.value,
              f.executeBy, f.debitAccount.value, f.creditAccount.value)
  }

  /** One business rule: whether it holds, and the code it fails with. */
  datatype Rule = Rule(holds: bool, code: Code)

  /** The code of the first rule that does not hold. */
  function FirstFailure(rules: seq<Rule>): Option<Code> {
    if rules == [] then None
    else if !rules[0].holds then Some(rules[0].code)
    else FirstFailure(rules[1..])
  }

  /**
   * The rules, each stated on its own, in the order they run: AM01, CU02,
   * AC04 (debit, credit), AC02, AC03 lookup (debit, credit), CU01, DT01,
   * AC03 balance (debit, credit), AC01.
   */
  function Rules(p: Parsed, accounts: Value): seq<Rule>
    requires p.Instruction?
  {
    RulesOf(Derive(p, accounts))
  }

  function RulesOf(f: Facts): seq<Rule> {
    FieldRules(f) + AccountRules(f)
  }

  /** The rules up to the account lookups. */
  function FieldRules(f: Facts): seq<Rule> {
    [ Rule(f.amount.Some?, AM01),
      Rule(!Blank(f.currency) && IsSupportedCurrency(f.currency.value), CU02),
      Rule(ValidAccountId(f.debitId), AC04),
      Rule(ValidAccountId(f.creditId), AC04),
      Rule(f.debitId != f.creditId, AC02),
      Rule(f.debitAccount.Some?, AC03),
      Rule(f.creditAccount.Some?, AC03) ]
  }

  /** The rules on the accounts found: currencies, date, balances, funds. */
  function AccountRules(f: Facts): seq<Rule> {
    [ Rule(CurrenciesAgree(f.debitCurrency, f.creditCurrency, f.currency), CU01),
      Rule(f.onDate.None? || f.executeBy.Some?, DT01),
      Rule(f.debitBalance.Some?, AC03),
      Rule(f.creditBalance.Some?, AC03),
      Rule(f.debitBalance.Some? && f.amount.Some? ==> f.debitBalance.value >= f.amount.value, AC01) ]
  }

  /** Both accounts carry a currency, the same one, and it is the instruction's. */
  predicate CurrenciesAgree(debitCurrency: Option<string>, creditCurrency: Option<string>, currency: Option<string>) {
    && !Blank(debitCurrency) && !Blank(creditCurrency) && debitCurrency.value == creditCurrency.value
    && currency.Some? && debitCurrency.value == currency.value
  }

  /** The validator accepts exactly when every rule holds, and otherwise reports the first failing rule's code. */
  lemma ValidateFollowsRules(p: Parsed, accounts: Value)
    requires p.Instruction?
    ensures Validate(p, accounts).Valid? <==> FirstFailure(Rules(p, accounts)).None?
    ensures Validate(p, accounts).Invalid? ==> FirstFailure(Rules(p, accounts)) == Some(Validate(p, accounts).code)
  {
    CheckFollowsRules(Derive(p, accounts));
  }

  lemma CheckFollowsRules(f: Facts)
    ensures Check(f).Valid? <==> FirstFailure(RulesOf(f)).None?
    ensures Check(f).Invalid? ==> FirstFailure(RulesOf(f)) == Some(Check(f).code)
  {
    var rules := FieldRules(f);
    FirstFailureAppend(rules, AccountRules(f));
    if f.amount.None? {
      FirstFailureAt(rules, 0);
    } else if Blank(f.currency) || !IsSupportedCurrency(f.currency.value) {
      FirstFailureAt(rules, 1);
    } else if !ValidAccountId(f.debitId) {
      FirstFailureAt(rules, 2);
    } else if !ValidAccountId(f.creditId) {
      FirstFailureAt(rules, 3);
    } else if f.debitId == f.creditId {
      FirstFailureAt(rules, 4);
    } else if f.debitAccount.None? {
      FirstFailureAt(rules, 5);
    } else if f.creditAccount.None? {
      FirstFailureAt(rules, 6);
    } else {
      FirstFailureNone(rules);
      var context := Context(f.amount, f.currency, f.debitId, f.creditId, f.onDate);
      assert Check(f) == CheckCurrencies(f, context);
      AccountRulesFollow(f, context);
    }
  }

  lemma AccountRulesFollow(f: Facts, context: Context)
    requires f.debitAccount.Some? && f.creditAccount.Some? && f.amount.Some? && !Blank(f.currency)
    requires f.debitId.Some? && f.creditId.Some?
    ensures CheckCurrencies(f, context).Valid? <==> FirstFailure(AccountRules(f)).None?
    ensures CheckCurrencies(f, context).Invalid? ==> FirstFailure(AccountRules(f)) == Some(CheckCurrencies(f, context).code)
  {
    var rules := AccountRules(f);
    if !CurrenciesAgree(f.debitCurrency, f.creditCurrency, f.currency) {
      FirstFailureAt(rules, 0);
    } else if f.onDate.Some? && f.executeBy.None? {
      FirstFailureAt(rules, 1);
    } else if f.debitBalance.None? {
      FirstFailureAt(rules, 2);
    } else if f.creditBalance.None? {
      FirstFailureAt(rules, 3);
    } else if f.debitBalance.value < f.amount.value {
      FirstFailureAt(rules, 4);
    } else {
      FirstFailureNone(rules);
    }
  }

  lemma {:induction false} FirstFailureAppend(a: seq<Rule>, b: seq<Rule>)
    ensures FirstFailure(a + b) == if FirstFailure(a).Some? then FirstFailure(a) else FirstFailure(b)
  {
    if a != [] {
      assert (a + b)[1..] == a[1..] + b;
      FirstFailureAppend(a[1..], b);
    } else {
      assert a + b == b;
    }
  }

  lemma {:induction false} FirstFailureAt(rules: seq<Rule>, k: nat)
    requires k < |rules| && !rules[k].holds
    requires forall j :: 0 <= j < k ==> rules[j].holds
    ensures FirstFailure(rules) == Some(rules[k].code)
  {
    if k > 0 {
      FirstFailureAt(rules[1..], k - 1);
    }
  }

  lemma {:induction false} FirstFailureNone(rules: seq<Rule>)
    requires forall j :: 0 <= j < |rules| ==> rules[j].holds
    ensures FirstFailure(rules) == None
  {
    if rules != [] {
      FirstFailureNone(rules[1..]);
    }
  }

  // ---------------------------------------------------------------- what a result carries

  /** What a failure reports, stated over the values the chain computes. */
  lemma CheckFailureContext(f: Facts)
    ensures var r := Check(f);
      r.Invalid? ==>
        && r.context.debitAccountId == f.debitId && r.context.creditAccountId == f.creditId
        && (r.code == AM01 <==> f.amount.None?)
        && (r.code == AM01 ==> r.context.amount.None? && r.context.currency.None? && r.context.executeBy == f.onDate)
        && (r.code != AM01 ==> r.context.amount == f.amount && r.context.currency == f.currency)
        && (r.code in {CU02, AC04, AC02, CU01} ==> r.context.executeBy == f.onDate)
        && (r.code == DT01 ==> r.context.executeBy.None?)
        && (r.code == AC01 ==> r.context.executeBy == f.executeBy)
        && (r.code == AC03 && f.debitAccount.None? ==>
              f.debitId.Some? && r.reason == Message(AC03) + ": " + f.debitId.value)
        && (r.code == AC03 && f.debitAccount.Some? && f.creditAccount.None? ==>
              f.creditId.Some? && r.reason == Message(AC03) + ": " + f.creditId.value)
        && (r.code == AC03 && f.debitAccount.Some? && f.creditAccount.Some? ==>
              r.context.executeBy == f.executeBy)
        && (r.code == AC03 && (f.debitAccount.None? || f.creditAccount.None?) ==>
              r.context.executeBy == f.onDate)
        && (r.code == CU01 ==>
              f.debitAccount.Some? && f.creditAccount.Some? && !Blank(f.currency) && CurrencyFailureReason(f, r))
        && (f.debitAccount.Some? && f.creditAccount.Some? && f.amount.Some? && r.code in {DT01, AC03, AC01} ==>
              FundsFailure(f, Context(f.amount, f.currency, f.debitId, f.creditId, f.onDate), r))
  {
    if f.amount.Some? && !Blank(f.currency) && IsSupportedCurrency(f.currency.value)
       && ValidAccountId(f.debitId) && ValidAccountId(f.creditId) && f.debitId != f.creditId
       && f.debitAccount.Some? && f.creditAccount.Some? {
      var context := Context(f.amount, f.currency, f.debitId, f.creditId, f.onDate);
      assert Check(f) == CheckCurrencies(f, context);
      CurrenciesFailureContext(f, context);
    }
  }

  /**
   * From the currency rules on, a failure changes at most the date of the
   * context; a balance failure (AC03) reports the normalised date and names
   * the side whose balance is not a number.
   */
  lemma CurrenciesFailureContext(f: Facts, context: Context)
    requires f.debitAccount.Some? && f.creditAccount.Some? && f.amount.Some? && !Blank(f.currency)
    requires f.debitId.Some? && f.creditId.Some?
    ensures var r := CheckCurrencies(f, context);
      r.Invalid? ==>
        && r.code in {CU01, DT01, AC03, AC01}
        && r.context == context.(executeBy := r.context.executeBy)
        && (r.code == CU01 ==> r.context == context)
        && CurrencyFailureReason(f, r)
        && (r.code != CU01 ==> FundsFailure(f, context, r))
  {
    var dc := f.debitCurrency;
    var cc := f.creditCurrency;
    if !Blank(dc) && !Blank(cc) && dc.value == cc.value && dc.value == f.currency.value {
      assert CheckCurrencies(f, context) == CheckFunds(f, context);
      FundsFailureContext(f, context);
    }
  }

  /**
   * What a date, balance or funds failure reports: the date rule leaves the
   * date `null`; a balance failure (AC03) keeps the normalised date and names
   * the side whose balance is not a number; an insufficient-funds failure
   * (AC01) keeps the normalised date and names the debit account, its balance
   * and the amount.
   */
  predicate FundsFailure(f: Facts, context: Context, r: Validation)
    requires f.debitAccount.Some? && f.amount.Some?
  {
    r.Invalid? ==>
      && r.code in {DT01, AC03, AC01}
      && r.context == context.(executeBy := r.context.executeBy)
      && (r.code == DT01 ==> r.context.executeBy.None? && r.reason == Message(DT01))
      && (r.code == AC03 ==> r.context.executeBy == f.executeBy)
      && (r.code == AC03 && f.debitBalance.None? ==>
            r.reason == Message(AC03) + ": invalid balance for debit account")
      && (r.code == AC03 && f.debitBalance.Some? ==>
            f.creditBalance.None? && r.reason == Message(AC03) + ": invalid balance for credit account")
      && (r.code == AC01 ==>
            && r.context.executeBy == f.executeBy
            && f.debitBalance.Some? && f.debitBalance.value < f.amount.value
            && r.reason == Message(AC01) + ": " + Interpolate(Get(f.debitAccount.value, "id")) + " has "
                           + IntToString(f.debitBalance.value) + ", needs " + NatToString(f.amount.value))
  }

  /** The date, balance and funds steps fail only as `FundsFailure` says. */
  lemma FundsFailureContext(f: Facts, context: Context)
    requires f.debitAccount.Some? && f.creditAccount.Some? && f.amount.Some? && !Blank(f.currency)
    requires f.debitId.Some? && f.creditId.Some?
    ensures FundsFailure(f, context, CheckFunds(f, context))
  {
  }

  /**
   * The three CU01 reasons: a missing account currency gives the plain
   * message; two different account currencies are both named with their
   * accounts' ids; otherwise the instruction's currency differs from the
   * accounts' one, and both are named.
   */
  predicate CurrencyFailureReason(f: Facts, r: Validation)
    requires f.debitAccount.Some? && f.creditAccount.Some? && !Blank(f.currency)
  {
    var dc := f.debitCurrency;
    var cc := f.creditCurrency;
    r.Invalid? && r.code == CU01 ==>
      if Blank(dc) || Blank(cc) then r.reason == Message(CU01)
      else if dc.value != cc.value then
        r.reason == Message(CU01) + ": " + Interpolate(Get(f.debitAccount.value, "id")) + "=" + dc.value
                    + ", " + Interpolate(Get(f.creditAccount.value, "id")) + "=" + cc.value
      else
        && dc.value != f.currency.value
        && r.reason == Message(CU01) + ": instruction currency " + f.currency.value
                       + " differs from account currency " + dc.value
  }

  /**
   * A failure reports both account ids as given. An amount failure leaves
   * amount and currency `null`; every later failure reports the parsed amount
   * and the normalised currency. Failures before the date rule keep the raw
   * date, a date failure reports `null`, and a balance or insufficient-funds
   * failure reports the normalised date. A failed lookup (AC03) keeps the
   * raw date and names the missing id in its reason. The currency, date,
   * balance and funds failures give the reasons `CurrencyFailureReason` and
   * `FundsFailure` state.
   */
  lemma ValidateFailureContext(p: Parsed, accounts: Value)
    requires p.Instruction?
    ensures var r := Validate(p, accounts);
      r.Invalid? ==>
        && r.context.debitAccountId == NonEmpty(p.debitAccountId)
        && r.context.creditAccountId == NonEmpty(p.creditAccountId)
        && (r.code == AM01 <==> PositiveInteger(Some(p.amount)).None?)
        && (r.code == AM01 ==>
              r.context.amount.None? && r.context.currency.None? && r.context.executeBy == NonEmpty(p.onDate))
        && (r.code != AM01 ==>
              r.context.amount == PositiveInteger(Some(p.amount))
              && r.context.currency == NormalizeCurrency(FromOption(p.currency)))
        && (r.code in {CU02, AC04, AC02, CU01} ==> r.context.executeBy == NonEmpty(p.onDate))
        && (r.code == DT01 ==> r.context.executeBy.None?)
        && (r.code == AC01 ==> r.context.executeBy == ScheduledDate(NonEmpty(p.onDate)))
        && (var list := AccountList(accounts);
            var debitAccount := LookUp(list, NonEmpty(p.debitAccountId));
            var creditAccount := LookUp(list, NonEmpty(p.creditAccountId));
            && (r.code == AC03 && debitAccount.None? ==>
                  NonEmpty(p.debitAccountId).Some?
                  && r.reason == Message(AC03) + ": " + NonEmpty(p.debitAccountId).value)
            && (r.code == AC03 && debitAccount.Some? && creditAccount.None? ==>
                  NonEmpty(p.creditAccountId).Some?
                  && r.reason == Message(AC03) + ": " + NonEmpty(p.creditAccountId).value)
            && (r.code == AC03 && debitAccount.Some? && creditAccount.Some? ==>
                  r.context.executeBy == ScheduledDate(NonEmpty(p.onDate)))
            && (r.code == AC03 && (debitAccount.None? || creditAccount.None?) ==>
                  r.context.executeBy == NonEmpty(p.onDate)))
        && (var f := Derive(p, accounts);
            && (r.code == CU01 ==>
                  f.debitAccount.Some? && f.creditAccount.Some? && !Blank(f.currency) && CurrencyFailureReason(f, r))
            && (f.debitAccount.Some? && f.creditAccount.Some? && f.amount.Some? && r.code in {DT01, AC03, AC01} ==>
                  FundsFailure(f, Context(f.amount, f.currency, f.debitId, f.creditId, f.onDate), r)))
  {
    var f := Derive(p, accounts);
    assert Validate(p, accounts) == Check(f);
    CheckFailureContext(f);
  }

  /** What a success carries, stated over the values the chain computes. */
  lemma CheckSuccess(f: Facts)
    ensures var r := Check(f);
      r.Valid? ==>
        && f.amount == Some(r.amount)
        && f.currency == Some(r.currency) && IsSupportedCurrency(r.currency)
        && f.debitId == Some(r.debitAccountId) && f.creditId == Some(r.creditAccountId)
        && ValidAccountId(f.debitId) && ValidAccountId(f.creditId) && r.debitAccountId != r.creditAccountId
        && f.debitAccount == Some(r.debitAccount) && f.creditAccount == Some(r.creditAccount)
        && f.debitCurrency == Some(r.currency) && f.creditCurrency == Some(r.currency)
        && r.executeBy == f.executeBy && (f.onDate.Some? ==> r.executeBy.Some?)
        && f.debitBalance.Some? && f.creditBalance.Some? && f.debitBalance.value >= r.amount
  {
  }

  /**
   * A validated transfer carries the parsed amount, a supported currency
   * shared by both accounts, two distinct well-formed ids, the first accounts
   * in list order holding them, the normalised date (a calendar date when
   * present), and a debit balance that covers the amount.
   */
  lemma ValidateSuccess(p: Parsed, accounts: Value)
    requires p.Instruction?
    ensures var r := Validate(p, accounts);
      r.Valid? ==>
        && Some(r.amount) == PositiveInteger(Some(p.amount)) && r.amount > 0
        && Some(r.currency) == NormalizeCurrency(FromOption(p.currency)) && r.currency in SupportedCurrencies
        && Some(r.debitAccountId) == NonEmpty(p.debitAccountId)
        && Some(r.creditAccountId) == NonEmpty(p.creditAccountId)
        && ValidAccountId(Some(r.debitAccountId)) && ValidAccountId(Some(r.creditAccountId))
        && r.debitAccountId != r.creditAccountId
        && Some(r.debitAccount) == Find(AccountList(accounts), r.debitAccountId)
        && Some(r.creditAccount) == Find(AccountList(accounts), r.creditAccountId)
        && HoldsId(r.debitAccount, r.debitAccountId) && HoldsId(r.creditAccount, r.creditAccountId)
        && NormalizeCurrency(Get(r.debitAccount, "currency")) == Some(r.currency)
        && NormalizeCurrency(Get(r.creditAccount, "currency")) == Some(r.currency)
        && r.executeBy == ScheduledDate(NonEmpty(p.onDate))
        && (r.executeBy.Some? ==> IsCalendarDate(r.executeBy.value))
        && BalanceNumber(Get(r.debitAccount, "balance")).Some?
        && BalanceNumber(Get(r.creditAccount, "balance")).Some?
        && BalanceNumber(Get(r.debitAccount, "balance")).value >= r.amount
  {
    var f := Derive(p, accounts);
    CheckSuccess(f);
    var r := Check(f);
    if r.Valid? {
      if r.executeBy.Some? {
        DateValueSpec(f.onDate.value);
      }
    }
  }

  // ---------------------------------------------------------------- the validator as written

  /**
   * `validateInstruction` step by step: a context record updated as each rule
   * passes, the digit loop for the amount, the character scan for the ids, the
   * list scan for the accounts and the date check, returning at the first
   * failure.
   */
  method ValidateInstruction(p: Parsed, accounts: Value) returns (r: Validation)
    requires p.Instruction?
    ensures r == Validate(p, accounts)
  {
    ghost var f := Derive(p, accounts);
    var list := if accounts.Arr? then accounts.items else [];
    var context := Context(None, None, NonEmpty(p.debitAccountId), NonEmpty(p.creditAccountId), NonEmpty(p.onDate));
    var amount := ParsePositiveInteger(Some(p.amount));
    if amount.None? {
      context := context.(amount := None);
      return Fail(AM01, Message(AM01), context);
    }
    context := context.(amount := amount);
    var currency := NormalizeCurrency(FromOption(p.currency));
    context := context.(currency := currency);
    assert context == Context(f.amount, f.currency, f.debitId, f.creditId, f.onDate);
    if Blank(currency) {
      return Fail(CU02, Message(CU02), context);
    }
    if !IsSupportedCurrency(currency.value) {
      return Fail(CU02, Message(CU02), context);
    }
    var ok := IsValidAccountId(context.debitAccountId);
    if !ok {
      return Fail(AC04, Message(AC04), context);
    }
    ok := IsValidAccountId(context.creditAccountId);
    if !ok {
      return Fail(AC04, Message(AC04), context);
    }
    if context.debitAccountId == context.creditAccountId {
      return Fail(AC02, Message(AC02), context);
    }
    var debitId := context.debitAccountId.value;
    var creditId := context.creditAccountId.value;
    var debitAccount := FindAccount(list, debitId);
    assert debitAccount == f.debitAccount;
    if debitAccount.None? {
      return Fail(AC03, Message(AC03) + ": " + debitId, context);
    }
    var creditAccount := FindAccount(list, creditId);
    assert creditAccount == f.creditAccount;
    if creditAccount.None? {
      return Fail(AC03, Message(AC03) + ": " + creditId, context);
    }
    assert Validate(p, accounts) == CheckCurrencies(f, context);
    r := CheckAccounts(f, context, debitAccount.value, creditAccount.value);
  }

  /** The rest of `validateInstruction`, from the account currencies on. */
  method CheckAccounts(ghost f: Facts, context: Context, debitAccount: Value, creditAccount: Value)
    returns (r: Validation)
    requires f.debitAccount == Some(debitAccount) && f.creditAccount == Some(creditAccount)
    requires f.amount.Some? && !Blank(f.currency) && f.debitId.Some? && f.creditId.Some?
    requires f.debitCurrency == NormalizeCurrency(Get(debitAccount, "currency"))
    requires f.creditCurrency == NormalizeCurrency(Get(creditAccount, "currency"))
    requires f.executeBy == ScheduledDate(f.onDate)
    requires f.debitBalance == BalanceNumber(Get(debitAccount, "balance"))
    requires f.creditBalance == BalanceNumber(Get(creditAccount, "balance"))
    requires context == Context(f.amount, f.currency, f.debitId, f.creditId, f.onDate)
    ensures r == CheckCurrencies(f, context)
  {
    var currency := context.currency.value;
    var debitCurrency := NormalizeCurrency(Get(debitAccount, "currency"));
    var creditCurrency := NormalizeCurrency(Get(creditAccount, "currency"));
    if Blank(debitCurrency) || Blank(creditCurrency) {
      return Fail(CU01, Message(CU01), context);
    }
    if debitCurrency.value != creditCurrency.value {
      return Fail(CU01, Message(CU01) + ": " + Interpolate(Get(debitAccount, "id")) + "=" + debitCurrency.value
                        + ", " + Interpolate(Get(creditAccount, "id")) + "=" + creditCurrency.value, context);
    }
    if debitCurrency.value != currency {
      return Fail(CU01, Message(CU01) + ": instruction currency " + currency
                        + " differs from account currency " + debitCurrency.value, context);
    }
    var next := context;
    var executeBy: Option<string> := None;
    if next.executeBy.Some? {
      var date := ValidateDate(next.executeBy.value);
      if date.None? {
        next := next.(executeBy := None);
        return Fail(DT01, Message(DT01), next);
      }
      executeBy := date;
    }
    next := next.(executeBy := executeBy);
    var amount := next.amount.value;
    var debitBalance := BalanceNumber(Get(debitAccount, "balance"));
    var creditBalance := BalanceNumber(Get(creditAccount, "balance"));
    if debitBalance.None? {
      return Fail(AC03, Message(AC03) + ": invalid balance for debit account", next);
    }
    if creditBalance.None? {
      return Fail(AC03, Message(AC03) + ": invalid balance for credit account", next);
    }
    if debitBalance.value < amount {
      return Fail(AC01, Message(AC01) + ": " + Interpolate(Get(debitAccount, "id")) + " has "
                        + IntToString(debitBalance.value) + ", needs " + NatToString(amount), next);
    }
    return Valid(amount, currency, next.debitAccountId.value, next.creditAccountId.value,
                 executeBy, debitAccount, creditAccount);
  }
}
