/**
 * The text of `solo_syntax_test` in src/parser.rs, read by `next_token` one token at a time:
 * its characters are described token by token, each run of characters is
 * scanned on its own, and the scans are chained into the whole token list.
 */
module LexSyntax {
  import opened Ast
  import opened Lexer
  import opened LexerExamples

  /** The tokens of the text of `solo_syntax_test`, one by one. */
  predicate SyntaxStream(ts: seq<Token>) {
    && |ts| == 8 && ts[0] == Ident("syntax") && ts[1] == Whitespace && ts[2] == Equals
    && ts[3] == Whitespace && ts[4] == Quote && ts[5] == Ident("proto3") && ts[6] == Quote
    && ts[7] == Semicolon
  }

  /** The text of `solo_syntax_test`, written as a balanced concatenation of short pieces. */
  const SyntaxSource: string :=
    "syntax" + (" =" + " \"proto3\";")

  /** Characters 0 to 6 of the text of `solo_syntax_test`. */
  predicate SyntaxChars0(s: seq<char>) {
    && |s| == 18 && s[0] == 's' && s[1] == 'y' && s[2] == 'n' && s[3] == 't' && s[4] == 'a'
    && s[5] == 'x' && s[6] == ' '
  }

  /** Characters 7 to 8 of the text of `solo_syntax_test`. */
  predicate SyntaxChars1(s: seq<char>) {
    && |s| == 18 && s[7] == '=' && s[8] == ' '
  }

  /** Characters 9 to 15 of the text of `solo_syntax_test`. */
  predicate SyntaxChars2(s: seq<char>) {
    && |s| == 18 && s[9] == '"' && s[10] == 'p' && s[11] == 'r' && s[12] == 'o' && s[13] == 't'
    && s[14] == 'o' && s[15] == '3'
  }

  /** Characters 16 to 17 of the text of `solo_syntax_test`. */
  predicate SyntaxChars3(s: seq<char>) {
    && |s| == 18 && s[16] == '"' && s[17] == ';'
  }

  /** The characters of the text of `solo_syntax_test`, a few tokens at a time. */
  predicate SyntaxText(s: seq<char>) {
    && SyntaxChars0(s) && SyntaxChars1(s) && SyntaxChars2(s) && SyntaxChars3(s)
  }

  /** The tokens of the text of `solo_syntax_test` and where each ends, a few at a time. */
  function SyntaxPlan0(): Plan {
    Then(Ident("syntax"), 6, Then(Whitespace, 7, SyntaxPlan1()))
  }

  function SyntaxPlan1(): Plan {
    Then(Equals, 8, Then(Whitespace, 9, SyntaxPlan2()))
  }

  function SyntaxPlan2(): Plan {
    Then(Quote, 10, Then(Ident("proto3"), 16, SyntaxPlan3()))
  }

  function SyntaxPlan3(): Plan {
    Then(Quote, 17, Then(Semicolon, 18, Done))
  }

  /** Characters 0 to 6 of the text of `solo_syntax_test`, from the literal text. */
  lemma SyntaxTextIs0(s: seq<char>)
    requires s == SyntaxSource
    ensures SyntaxChars0(s)
  {
  }

  /** Characters 7 to 8 of the text of `solo_syntax_test`, from the literal text. */
  lemma SyntaxTextIs1(s: seq<char>)
    requires s == SyntaxSource
    ensures SyntaxChars1(s)
  {
  }

  /** Characters 9 to 15 of the text of `solo_syntax_test`, from the literal text. */
  lemma SyntaxTextIs2(s: seq<char>)
    requires s == SyntaxSource
    ensures SyntaxChars2(s)
  {
  }

  /** Characters 16 to 17 of the text of `solo_syntax_test`, from the literal text. */
  lemma SyntaxTextIs3(s: seq<char>)
    requires s == SyntaxSource
    ensures SyntaxChars3(s)
  {
  }

  /** The literal text of the text of `solo_syntax_test`, character by character. */
  lemma SyntaxTextIs(s: seq<char>)
    requires s == SyntaxSource
    ensures SyntaxText(s)
  {
    SyntaxTextIs0(s);
    SyntaxTextIs1(s);
    SyntaxTextIs2(s);
    SyntaxTextIs3(s);
  }

  /** From position 16 on, the text of `solo_syntax_test` scans as planned. */
  lemma SyntaxScans3(s: seq<char>)
    requires SyntaxChars3(s)
    ensures ScansAs(s, 16, Then(Quote, 17, Then(Semicolon, 18, Done)))
  {
    ScanPunctuationAt(s, 17);
    ScanPunctuationAt(s, 16);
  }

  /** From position 9 on, the text of `solo_syntax_test` scans as planned. */
  lemma SyntaxScans2(s: seq<char>, tail: Plan)
    requires SyntaxChars2(s) && s[16] == '"'
    requires ScansAs(s, 16, tail)
    ensures ScansAs(s, 9, Then(Quote, 10, Then(Ident("proto3"), 16, tail)))
  {
    assert s[10..16] == "proto3";
    assert forall k :: 10 <= k < 16 ==> s[k] == s[10..16][k - 10];
    ScanIdentAt(s, 10, 6);
    ScanPunctuationAt(s, 9);
  }

  /** From position 7 on, the text of `solo_syntax_test` scans as planned. */
  lemma SyntaxScans1(s: seq<char>, tail: Plan)
    requires SyntaxChars1(s) && s[9] == '"'
    requires ScansAs(s, 9, tail)
    ensures ScansAs(s, 7, Then(Equals, 8, Then(Whitespace, 9, tail)))
  {
    ScanWhitespaceAt(s, 8, 1);
    ScanPunctuationAt(s, 7);
  }

  /** From position 0 on, the text of `solo_syntax_test` scans as planned. */
  lemma SyntaxScans0(s: seq<char>, tail: Plan)
    requires SyntaxChars0(s) && s[7] == '='
    requires ScansAs(s, 7, tail)
    ensures ScansAs(s, 0, Then(Ident("syntax"), 6, Then(Whitespace, 7, tail)))
  {
    assert s[0..6] == "syntax";
    assert forall k :: 0 <= k < 6 ==> s[k] == s[0..6][k];
    ScanWhitespaceAt(s, 6, 1);
    ScanIdentAt(s, 0, 6);
  }

  /** The whole of the text of `solo_syntax_test` scans as planned. */
  lemma SyntaxScans(s: seq<char>)
    requires SyntaxText(s)
    ensures ScansAs(s, 0, SyntaxPlan0())
  {
    SyntaxScans3(s);
    assert SyntaxChars3(s);
    SyntaxScans2(s, SyntaxPlan3());
    assert SyntaxChars2(s);
    SyntaxScans1(s, SyntaxPlan2());
    assert SyntaxChars1(s);
    SyntaxScans0(s, SyntaxPlan1());
  }

  /** Tokens 0 to 1 of the text of `solo_syntax_test`, where the tokens from 0 on are planned. */
  lemma SyntaxPlanTokens0(ts: seq<Token>)
    requires 0 <= |ts| && ts[0..] == PlanTokens(SyntaxPlan0())
    ensures ts[0] == Ident("syntax") && ts[1] == Whitespace && 2 <= |ts| && ts[2..] == PlanTokens(SyntaxPlan1())
  {
    assert PlanTokens(SyntaxPlan0()) == [Ident("syntax"), Whitespace] + PlanTokens(SyntaxPlan1());
    assert ts[0..][2..] == ts[2..];
    assert ts[0] == ts[0..][0];
    assert ts[1] == ts[0..][1];
  }

  /** Tokens 2 to 3 of the text of `solo_syntax_test`, where the tokens from 2 on are planned. */
  lemma SyntaxPlanTokens1(ts: seq<Token>)
    requires 2 <= |ts| && ts[2..] == PlanTokens(SyntaxPlan1())
    ensures ts[2] == Equals && ts[3] == Whitespace && 4 <= |ts| && ts[4..] == PlanTokens(SyntaxPlan2())
  {
    assert PlanTokens(SyntaxPlan1()) == [Equals, Whitespace] + PlanTokens(SyntaxPlan2());
    assert ts[2..][2..] == ts[4..];
    assert ts[2] == ts[2..][0];
    assert ts[3] == ts[2..][1];
  }

  /** Tokens 4 to 5 of the text of `solo_syntax_test`, where the tokens from 4 on are planned. */
  lemma SyntaxPlanTokens2(ts: seq<Token>)
    requires 4 <= |ts| && ts[4..] == PlanTokens(SyntaxPlan2())
    ensures ts[4] == Quote && ts[5] == Ident("proto3") && 6 <= |ts| && ts[6..] == PlanTokens(SyntaxPlan3())
  {
    assert PlanTokens(SyntaxPlan2()) == [Quote, Ident("proto3")] + PlanTokens(SyntaxPlan3());
    assert ts[4..][2..] == ts[6..];
    assert ts[4] == ts[4..][0];
    assert ts[5] == ts[4..][1];
  }

  /** Tokens 6 to 7 of the text of `solo_syntax_test`, where the tokens from 6 on are planned. */
  lemma SyntaxPlanTokens3(ts: seq<Token>)
    requires 6 <= |ts| && ts[6..] == PlanTokens(SyntaxPlan3())
    ensures ts[6] == Quote && ts[7] == Semicolon && |ts| == 8
  {
    assert PlanTokens(SyntaxPlan3()) == [Quote, Semicolon];
    assert ts[6] == ts[6..][0];
    assert ts[7] == ts[6..][1];
  }

  /** The planned tokens, one by one. */
  lemma SyntaxPlanStream(ts: seq<Token>)
    requires ts == PlanTokens(SyntaxPlan0())
    ensures SyntaxStream(ts)
  {
    assert ts[0..] == ts;
    SyntaxPlanTokens0(ts);
    SyntaxPlanTokens1(ts);
    SyntaxPlanTokens2(ts);
    SyntaxPlanTokens3(ts);
  }

  /** The tokens `next_token` reads from the text of `solo_syntax_test`. */
  lemma SyntaxLexes(s: seq<char>)
    requires s == SyntaxSource
    ensures SyntaxStream(Lex(s))
  {
    SyntaxTextIs(s);
    SyntaxScans(s);
    LexScans(s, 0, SyntaxPlan0());
    assert s[0..] == s;
    SyntaxPlanStream(Lex(s));
  }
}
