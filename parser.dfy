/**
 * The tokenizer and grammar recogniser for transfer sentences such as
 * `DEBIT 500 USD FROM ACCOUNT A1 FOR CREDIT TO ACCOUNT B2 ON 2025-01-01`.
 */
module Parser {
  import opened Wrappers
  import opened Text
  import opened Messages

  // ---------------------------------------------------------------- tokenizer

  /**
   * The character loop of the tokenizer, read as a function: every run of
   * whitespace becomes one space. `afterSpace` says a collapsed space was just
   * emitted, so further whitespace is dropped.
   */
  function CollapseRuns(s: string, afterSpace: bool): string
    decreases |s|
  {
    if s == [] then []
    else if IsWhitespace(s[0]) then
      if afterSpace then CollapseRuns(s[1..], true) else " " + CollapseRuns(s[1..], true)
    else [s[0]] + CollapseRuns(s[1..], false)
  }

  /** The value `collapseWhitespace` returns for a string. */
  function Collapse(s: string): string {
    Trim(CollapseRuns(s, false))
  }

  /** The only whitespace character in `s` is the space. */
  predicate SpacesOnly(s: string) {
    forall i :: 0 <= i < |s| ==> s[i] == ' ' || !IsWhitespace(s[i])
  }

  /** No two spaces of `s` are adjacent. */
  predicate NoDoubleSpace(s: string) {
    forall i :: 0 <= i < |s| - 1 ==> !(s[i] == ' ' && s[i + 1] == ' ')
  }

  /**
   * A collapsed string: the only whitespace is the space, no two spaces are
   * adjacent, and it neither starts nor ends with a space.
   */
  predicate Compact(s: string) {
    SpacesOnly(s) && NoDoubleSpace(s) && (s != [] ==> s[0] != ' ' && s[|s| - 1] != ' ')
  }

  /** The shape of a collapsed run: spaces only, never two in a row, none first after a space. */
  lemma {:induction false} CollapseRunsShape(s: string, afterSpace: bool)
    ensures SpacesOnly(CollapseRuns(s, afterSpace))
    ensures NoDoubleSpace(CollapseRuns(s, afterSpace))
    ensures afterSpace && CollapseRuns(s, afterSpace) != [] ==> CollapseRuns(s, afterSpace)[0] != ' '
    decreases |s|
  {
    if s != [] {
      var r := CollapseRuns(s, afterSpace);
      if IsWhitespace(s[0]) {
        CollapseRunsShape(s[1..], true);
        if !afterSpace {
          var rest := CollapseRuns(s[1..], true);
          assert r == " " + rest;
          assert forall i :: 1 <= i < |r| ==> r[i] == rest[i - 1];
        }
      } else {
        var rest := CollapseRuns(s[1..], false);
        CollapseRunsShape(s[1..], false);
        assert r == [s[0]] + rest;
        assert forall i :: 1 <= i < |r| ==> r[i] == rest[i - 1];
        assert r[0] == s[0];
      }
    }
  }

  /** A slice of a string keeps both shape properties. */
  lemma SliceShape(r: string, a: nat, b: nat)
    requires a <= b <= |r|
    requires SpacesOnly(r) && NoDoubleSpace(r)
    ensures SpacesOnly(r[a..b]) && NoDoubleSpace(r[a..b])
  {
    var t := r[a..b];
    assert forall i :: 0 <= i < |t| ==> t[i] == r[a + i];
  }

  /** The tokenizer's output is always compact. */
  lemma CollapseIsCompact(s: string)
    ensures Compact(Collapse(s))
  {
    CollapseRunsShape(s, false);
    TrimKeepsShape(CollapseRuns(s, false));
  }

  /** Trimming a string whose only whitespace is single spaces leaves it compact. */
  lemma TrimKeepsShape(r: string)
    requires SpacesOnly(r) && NoDoubleSpace(r)
    ensures Compact(Trim(r))
  {
    var t := Trim(r);
    var k := |r| - |TrimStart(r)|;
    assert t == r[k..k + |t|];
    SliceShape(r, k, k + |t|);
  }

  /**
   * `collapseWhitespace`: one pass over the characters, appending a single
   * space for each whitespace run, then a trim. `null` gives ''.
   */
  method CollapseWhitespace(s: Option<string>) returns (out: string)
    ensures s.None? ==> out == ""
    ensures s.Some? ==> out == Collapse(s.value)
    ensures Compact(out)
  {
    if s.None? {
      return "";
    }
    var text := s.value;
    out := "";
    var lastWasSpace := false;
    var i := 0;
    while i < |text|
      invariant 0 <= i <= |text|
      invariant out + CollapseRuns(text[i..], lastWasSpace) == CollapseRuns(text, false)
    {
      var ch := text[i];
      CollapseStep(text, i, lastWasSpace);
      if ch == ' ' || ch == '\t' || ch == '\n' || ch == '\r' {
        if !lastWasSpace {
          assert (out + " ") + CollapseRuns(text[i + 1..], true) == out + (" " + CollapseRuns(text[i + 1..], true));
          out := out + " ";
          lastWasSpace := true;
        }
      } else {
        assert (out + [ch]) + CollapseRuns(text[i + 1..], false) == out + ([ch] + CollapseRuns(text[i + 1..], false));
        out := out + [ch];
        lastWasSpace := false;
      }
      i := i + 1;
    }
    assert CollapseRuns(text[i..], lastWasSpace) == [];
    assert out == CollapseRuns(text, false);
    out := Trim(out);
    CollapseIsCompact(text);
  }

  /** One step of the character loop, read off the definition of `CollapseRuns`. */
  lemma CollapseStep(text: string, i: nat, lastWasSpace: bool)
    requires i < |text|
    ensures IsWhitespace(text[i]) && lastWasSpace ==>
      CollapseRuns(text[i..], lastWasSpace) == CollapseRuns(text[i + 1..], true)
    ensures IsWhitespace(text[i]) && !lastWasSpace ==>
      CollapseRuns(text[i..], lastWasSpace) == " " + CollapseRuns(text[i + 1..], true)
    ensures !IsWhitespace(text[i]) ==>
      CollapseRuns(text[i..], lastWasSpace) == [text[i]] + CollapseRuns(text[i + 1..], false)
  {
    assert text[i..][1..] == text[i + 1..];
  }

  /** `s.split(' ')`, with `cur` the part of the current piece already read. */
  function SplitAt(s: string, cur: string): (r: seq<string>)
    ensures |r| >= 1
    decreases |s|
  {
    if s == [] then [cur]
    else if s[0] == ' ' then [cur] + SplitAt(s[1..], "")
    else SplitAt(s[1..], cur + [s[0]])
  }

  /** Splitting at spaces and joining with spaces gives back the string. */
  lemma {:induction false} SplitAtJoin(s: string, cur: string)
    ensures Join(SplitAt(s, cur), " ") == cur + s
    decreases |s|
  {
    if s == [] {
    } else if s[0] == ' ' {
      SplitAtJoin(s[1..], "");
      var rest := SplitAt(s[1..], "");
      assert ([cur] + rest)[1..] == rest;
      assert cur + " " + s[1..] == cur + s;
    } else {
      SplitAtJoin(s[1..], cur + [s[0]]);
      assert cur + [s[0]] + s[1..] == cur + s;
    }
  }

  /** On compact input every piece is non-empty and free of whitespace. */
  lemma {:induction false} SplitAtTokens(s: string, cur: string)
    requires forall i :: 0 <= i < |s| ==> s[i] == ' ' || !IsWhitespace(s[i])
    requires forall i :: 0 <= i < |s| - 1 ==> !(s[i] == ' ' && s[i + 1] == ' ')
    requires s != [] ==> s[|s| - 1] != ' '
    requires cur == [] ==> s != [] && s[0] != ' '
    requires NoWhitespace(cur)
    ensures forall k :: 0 <= k < |SplitAt(s, cur)| ==>
      SplitAt(s, cur)[k] != "" && NoWhitespace(SplitAt(s, cur)[k])
    decreases |s|
  {
    if s == [] {
    } else if s[0] == ' ' {
      SplitAtTokens(s[1..], "");
    } else {
      SplitAtTokens(s[1..], cur + [s[0]]);
    }
  }

  /** `splitTokens`: the tokens of the collapsed instruction, none for an empty one. */
  function SplitTokens(s: string): seq<string> {
    var compact := Collapse(s);
    if compact == "" then [] else SplitAt(compact, "")
  }

  /**
   * No tokens exactly when the collapsed string is empty; otherwise the tokens
   * are non-empty, contain no whitespace, and joined by single spaces give the
   * collapsed string back.
   */
  lemma SplitTokensSpec(s: string)
    ensures SplitTokens(s) == [] <==> Collapse(s) == ""
    ensures SplitTokens(s) != [] ==> Join(SplitTokens(s), " ") == Collapse(s)
    ensures forall k :: 0 <= k < |SplitTokens(s)| ==>
      SplitTokens(s)[k] != "" && NoWhitespace(SplitTokens(s)[k])
  {
    var c := Collapse(s);
    if c != "" {
      CollapseIsCompact(s);
      SplitAtJoin(c, "");
      SplitAtTokens(c, "");
    }
  }

  // ---------------------------------------------------------------- grammar

  datatype Verb = Debit | Credit

  function VerbName(v: Verb): string {
    match v
    case Debit => "DEBIT"
    case Credit => "CREDIT"
  }

  /** What the recogniser returns: no verb, a structural error, or the extracted fields. */
  datatype Parsed =
    | Unparseable
    | SyntaxError(verb: Verb, code: Code)
    | Instruction(verb: Verb, amount: string, currency: Option<string>,
                  debitAccountId: Option<string>, creditAccountId: Option<string>,
                  onDate: Option<string>)

  /** `token || null`. */
  function OrNull(token: string): Option<string> {
    if token == "" then None else Some(token)
  }

  /** The token at `i` is present and equals `keyword` ignoring case. */
  predicate KeywordAt(tokens: seq<string>, i: nat, keyword: string)
    requires i < |tokens|
  {
    tokens[i] != "" && Upper(tokens[i]) == keyword
  }

  /** `onDate`: the token after a case-insensitive `ON` in position 11, if any. */
  function OnDate(tokens: seq<string>): Option<string> {
    if |tokens| > 11 && Upper(tokens[11]) == "ON" then
      if |tokens| > 12 then OrNull(tokens[12]) else None
    else None
  }

  /**
   * The recogniser proper, over any token sequence. A structural error or a
   * success keeps the verb the first token names; a success needs eleven
   * tokens.
   */
  function ParseTokens(tokens: seq<string>): (r: Parsed)
    ensures r.SyntaxError? || r.Instruction? ==> tokens != [] && VerbOf(tokens[0]) == Some(r.verb)
    ensures r.Instruction? ==> |tokens| >= 11
  {
    if |tokens| == 0 then Unparseable
    else
      var first := Upper(tokens[0]);
      if first != "DEBIT" && first != "CREDIT" then Unparseable
      else if first == "DEBIT" then
        if |tokens| < 11 then SyntaxError(Debit, SY01)
        else if !(KeywordAt(tokens, 3, "FROM") && KeywordAt(tokens, 4, "ACCOUNT")
                  && KeywordAt(tokens, 6, "FOR") && KeywordAt(tokens, 7, "CREDIT")
                  && KeywordAt(tokens, 8, "TO") && KeywordAt(tokens, 9, "ACCOUNT"))
        then SyntaxError(Debit, SY02)
        else Instruction(Debit, tokens[1], if tokens[2] != "" then Some(Upper(tokens[2])) else None,
                         OrNull(tokens[5]), OrNull(tokens[10]), OnDate(tokens))
      else
        if |tokens| < 11 then SyntaxError(Credit, SY01)
        else if !(KeywordAt(tokens, 3, "TO") && KeywordAt(tokens, 4, "ACCOUNT")
                  && KeywordAt(tokens, 6, "FOR") && KeywordAt(tokens, 7, "DEBIT")
                  && KeywordAt(tokens, 8, "FROM") && KeywordAt(tokens, 9, "ACCOUNT"))
        then SyntaxError(Credit, SY02)
        else Instruction(Credit, tokens[1], if tokens[2] != "" then Some(Upper(tokens[2])) else None,
                         OrNull(tokens[10]), OrNull(tokens[5]), OnDate(tokens))
  }

  /** `parseInstruction`. */
  function ParseInstruction(instruction: string): Parsed {
    ParseTokens(SplitTokens(instruction))
  }

  // ---------------------------------------------------------------- properties of the grammar

  /** The verb a first token names, ignoring case. */
  function VerbOf(token: string): Option<Verb> {
    if Upper(token) == "DEBIT" then Some(Debit)
    else if Upper(token) == "CREDIT" then Some(Credit)
    else None
  }

  /** The fixed literal slots of each verb's pattern: position and keyword. */
  function Literals(verb: Verb): seq<(nat, string)> {
    match verb
    case Debit => [(3, "FROM"), (4, "ACCOUNT"), (6, "FOR"), (7, "CREDIT"), (8, "TO"), (9, "ACCOUNT")]
    case Credit => [(3, "TO"), (4, "ACCOUNT"), (6, "FOR"), (7, "DEBIT"), (8, "FROM"), (9, "ACCOUNT")]
  }

  /** Every literal slot of the verb's pattern holds its keyword. */
  predicate LiteralsMatch(tokens: seq<string>, verb: Verb)
    requires |tokens| >= 11
  {
    forall j :: 0 <= j < |Literals(verb)| ==> KeywordAt(tokens, Literals(verb)[j].0, Literals(verb)[j].1)
  }

  /** Without a recognised verb the result is `Unparseable`, which carries no fields. */
  lemma ParseUnparseable(tokens: seq<string>)
    ensures ParseTokens(tokens) == Unparseable <==> tokens == [] || VerbOf(tokens[0]).None?
  {
  }

  /** A recognised verb with fewer than eleven tokens is `SY01`, carrying only the verb. */
  lemma ParseMissingKeyword(tokens: seq<string>, verb: Verb)
    requires tokens != [] && VerbOf(tokens[0]) == Some(verb)
    ensures ParseTokens(tokens) == SyntaxError(verb, SY01) <==> |tokens| < 11
  {
  }

  /** With eleven tokens or more, a mismatch in any literal slot is `SY02`, carrying only the verb. */
  lemma ParseKeywordOrder(tokens: seq<string>, verb: Verb)
    requires |tokens| >= 11 && VerbOf(tokens[0]) == Some(verb)
    ensures ParseTokens(tokens) == SyntaxError(verb, SY02) <==> !LiteralsMatch(tokens, verb)
  {
    var lits := Literals(verb);
    if LiteralsMatch(tokens, verb) {
      assert KeywordAt(tokens, lits[0].0, lits[0].1) && KeywordAt(tokens, lits[1].0, lits[1].1);
      assert KeywordAt(tokens, lits[2].0, lits[2].1) && KeywordAt(tokens, lits[3].0, lits[3].1);
      assert KeywordAt(tokens, lits[4].0, lits[4].1) && KeywordAt(tokens, lits[5].0, lits[5].1);
    }
  }

  /**
   * A matching pattern yields the fields: the amount is raw token 1, the
   * currency token 2 upper-cased; `DEBIT` reads the debit account from token 5
   * and the credit account from token 10, `CREDIT` the other way round.
   */
  lemma ParseFields(tokens: seq<string>, verb: Verb)
    requires |tokens| >= 11 && VerbOf(tokens[0]) == Some(verb) && LiteralsMatch(tokens, verb)
    ensures var p := ParseTokens(tokens);
      && p.Instruction? && p.verb == verb && p.amount == tokens[1]
      && p.currency == (if tokens[2] != "" then Some(Upper(tokens[2])) else None)
      && p.debitAccountId == OrNull(if verb == Debit then tokens[5] else tokens[10])
      && p.creditAccountId == OrNull(if verb == Debit then tokens[10] else tokens[5])
      && p.onDate == OnDate(tokens)
  {
    ParseKeywordOrder(tokens, verb);
  }

  /** Structural errors carry only `SY01` or `SY02`. */
  lemma ParseErrorCodes(tokens: seq<string>)
    ensures ParseTokens(tokens).SyntaxError? ==>
      ParseTokens(tokens).code == SY01 || ParseTokens(tokens).code == SY02
  {
  }

  /** The only codes the parser reports are `SY01` and `SY02`. */
  lemma ParseInstructionErrorCodes(instruction: string)
    ensures ParseInstruction(instruction).SyntaxError? ==>
      ParseInstruction(instruction).code == SY01 || ParseInstruction(instruction).code == SY02
  {
    ParseErrorCodes(SplitTokens(instruction));
  }

  /**
   * On a whole instruction every field of a successful parse is present: the
   * tokens are non-empty, so the currency is token 2 upper-cased and both ids
   * are set; the date is token 12 exactly when token 11 is `ON` and a
   * twelfth token follows; later tokens are ignored.
   */
  lemma ParseInstructionFields(instruction: string)
    requires ParseInstruction(instruction).Instruction?
    ensures var p := ParseInstruction(instruction);
      var tokens := SplitTokens(instruction);
      && |tokens| >= 11
      && p.amount == tokens[1] && p.amount != ""
      && p.currency == Some(Upper(tokens[2]))
      && p.debitAccountId.Some? && p.creditAccountId.Some?
      && (p.onDate.Some? <==> |tokens| > 12 && Upper(tokens[11]) == "ON")
      && (p.onDate.Some? ==> p.onDate.value == tokens[12])
  {
    SplitTokensSpec(instruction);
    ParseFieldsPresent(SplitTokens(instruction));
  }

  /** Over tokens that are all non-empty, a successful parse has every field but the date present. */
  lemma ParseFieldsPresent(tokens: seq<string>)
    requires forall i :: 0 <= i < |tokens| ==> tokens[i] != ""
    requires ParseTokens(tokens).Instruction?
    ensures var p := ParseTokens(tokens);
      && |tokens| >= 11
      && p.amount == tokens[1] && p.amount != ""
      && p.currency == Some(Upper(tokens[2]))
      && p.debitAccountId.Some? && p.creditAccountId.Some?
      && (p.onDate.Some? <==> |tokens| > 12 && Upper(tokens[11]) == "ON")
      && (p.onDate.Some? ==> p.onDate.value == tokens[12])
  {
    assert tokens[1] != "" && tokens[2] != "" && tokens[5] != "" && tokens[10] != "";
    assert |tokens| > 12 ==> tokens[12] != "";
  }

  /** An instruction that is blank after collapsing is unparseable. */
  lemma BlankIsUnparseable(instruction: string)
    requires Collapse(instruction) == ""
    ensures ParseInstruction(instruction) == Unparseable
  {
    SplitTokensSpec(instruction);
  }
}
