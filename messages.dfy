/** The closed table of status codes and the text each one carries. */
module Messages {

  datatype Code =
    | AP00 | AP02
    | AM01
    | AC01 | AC02 | AC03 | AC04
    | CU01 | CU02
    | DT01
    | SY01 | SY02 | SY03

  /** The code-to-message table every stage reads. */
  const Messages: map<Code, string> := map[
    AP00 := "Transaction executed successfully",
    AP02 := "Transaction scheduled for future execution",
    AM01 := "Amount must be a positive integer",
    AC01 := "Insufficient funds in debit account",
    AC02 := "Debit and credit accounts cannot be the same",
    AC03 := "Account not found",
    AC04 := "Invalid account ID format (letters, numbers, hyphen, period, @ allowed)",
    CU01 := "Account currency mismatch",
    CU02 := "Unsupported currency. Only NGN, USD, GBP, and GHS are supported",
    DT01 := "Invalid date format. Expected YYYY-MM-DD",
    SY01 := "Missing required keyword",
    SY02 := "Invalid keyword order",
    SY03 := "Malformed instruction: unable to parse keywords"
  ]

  /** The message of `code`; the table is total and no message is empty. */
  function Message(code: Code): (m: string)
    ensures code in Messages && m == Messages[code] && m != ""
  {
    MessagesTotal(code);
    Messages[code]
  }

  /** Every code has an entry in the table. */
  lemma MessagesTotal(code: Code)
    ensures code in Messages
  {
    match code {
      case AP00 =>
      case AP02 =>
      case AM01 =>
      case AC01 =>
      case AC02 =>
      case AC03 =>
      case AC04 =>
      case CU01 =>
      case CU02 =>
      case DT01 =>
      case SY01 =>
      case SY02 =>
      case SY03 =>
    }
  }
}
