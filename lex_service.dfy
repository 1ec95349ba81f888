/**
 * The text of `solo_service_test` in src/parser.rs, read by `next_token` one token at a time:
 * its characters are described token by token, each run of characters is
 * scanned on its own, and the scans are chained into the whole token list.
 */
module LexService {
  import opened Ast
  import opened Lexer
  import opened LexerExamples

  /** The tokens of the text of `solo_service_test`, one by one. */
  predicate ServiceStream(ts: seq<Token>) {
    && |ts| == 21 && ts[0] == Ident("service") && ts[1] == Whitespace && ts[2] == Ident("hi")
    && ts[3] == Whitespace && ts[4] == BraceOpen && ts[5] == Whitespace && ts[6] == Ident("rpc")
    && ts[7] == Whitespace && ts[8] == Ident("do") && ts[9] == ParensOpen
    && ts[10] == Ident("something") && ts[11] == ParensClose && ts[12] == Whitespace
    && ts[13] == Ident("returns") && ts[14] == Whitespace && ts[15] == ParensOpen
    && ts[16] == Ident("null") && ts[17] == ParensClose && ts[18] == Semicolon && ts[19] == Whitespace
    && ts[20] == BraceClose
  }

  /** The text of `solo_service_test`, written as a balanced concatenation of short pieces. */
  const ServiceSource: string :=
    (("service" + " hi {\n") + ("       " + " rpc")) + ((" do(something)" + " returns") +
    (" (null);\n" + ("    \n" + "    }")))

  /** Characters 0 to 7 of the text of `solo_service_test`. */
  predicate ServiceChars0(s: seq<char>) {
    && |s| == 65 && s[0] == 's' && s[1] == 'e' && s[2] == 'r' && s[3] == 'v' && s[4] == 'i'
    && s[5] == 'c' && s[6] == 'e' && s[7] == ' '
  }

  /** Characters 8 to 10 of the text of `solo_service_test`. */
  predicate ServiceChars1(s: seq<char>) {
    && |s| == 65 && s[8] == 'h' && s[9] == 'i' && s[10] == ' '
  }

  /** Characters 11 to 20 of the text of `solo_service_test`. */
  predicate ServiceChars2(s: seq<char>) {
    && |s| == 65 && s[11] == '{' && s[12] == '\n' && s[13] == ' ' && s[14] == ' ' && s[15] == ' '
    && s[16] == ' ' && s[17] == ' ' && s[18] == ' ' && s[19] == ' ' && s[20] == ' '
  }

  /** Characters 21 to 24 of the text of `solo_service_test`. */
  predicate ServiceChars3(s: seq<char>) {
    && |s| == 65 && s[21] == 'r' && s[22] == 'p' && s[23] == 'c' && s[24] == ' '
  }

  /** Characters 25 to 27 of the text of `solo_service_test`. */
  predicate ServiceChars4(s: seq<char>) {
    && |s| == 65 && s[25] == 'd' && s[26] == 'o' && s[27] == '('
  }

  /** Characters 28 to 37 of the text of `solo_service_test`. */
  predicate ServiceChars5(s: seq<char>) {
    && |s| == 65 && s[28] == 's' && s[29] == 'o' && s[30] == 'm' && s[31] == 'e' && s[32] == 't'
    && s[33] == 'h' && s[34] == 'i' && s[35] == 'n' && s[36] == 'g' && s[37] == ')'
  }

  /** Characters 38 to 45 of the text of `solo_service_test`. */
  predicate ServiceChars6(s: seq<char>) {
    && |s| == 65 && s[38] == ' ' && s[39] == 'r' && s[40] == 'e' && s[41] == 't' && s[42] == 'u'
    && s[43] == 'r' && s[44] == 'n' && s[45] == 's'
  }

  /** Characters 46 to 47 of the text of `solo_service_test`. */
  predicate ServiceChars7(s: seq<char>) {
    && |s| == 65 && s[46] == ' ' && s[47] == '('
  }

  /** Characters 48 to 52 of the text of `solo_service_test`. */
  predicate ServiceChars8(s: seq<char>) {
    && |s| == 65 && s[48] == 'n' && s[49] == 'u' && s[50] == 'l' && s[51] == 'l' && s[52] == ')'
  }

  /** Characters 53 to 63 of the text of `solo_service_test`. */
  predicate ServiceChars9(s: seq<char>) {
    && |s| == 65 && s[53] == ';' && s[54] == '\n' && s[55] == ' ' && s[56] == ' ' && s[57] == ' '
    && s[58] == ' ' && s[59] == '\n' && s[60] == ' ' && s[61] == ' ' && s[62] == ' ' && s[63] == ' '
  }

  /** Characters 64 to 64 of the text of `solo_service_test`. */
  predicate ServiceChars10(s: seq<char>) {
    && |s| == 65 && s[64] == '}'
  }

  /** The characters of the text of `solo_service_test`, a few tokens at a time. */
  predicate ServiceText(s: seq<char>) {
    && ServiceChars0(s) && ServiceChars1(s) && ServiceChars2(s) && ServiceChars3(s) && ServiceChars4(s)
    && ServiceChars5(s) && ServiceChars6(s) && ServiceChars7(s) && ServiceChars8(s) && ServiceChars9(s)
    && ServiceChars10(s)
  }

  /** The tokens of the text of `solo_service_test` and where each ends, a few at a time. */
  function ServicePlan0(): Plan {
    Then(Ident("service"), 7, Then(Whitespace, 8, ServicePlan1()))
  }

  function ServicePlan1(): Plan {
    Then(Ident("hi"), 10, Then(Whitespace, 11, ServicePlan2()))
  }

  function ServicePlan2(): Plan {
    Then(BraceOpen, 12, Then(Whitespace, 21, ServicePlan3()))
  }

  function ServicePlan3(): Plan {
    Then(Ident("rpc"), 24, Then(Whitespace, 25, ServicePlan4()))
  }

  function ServicePlan4(): Plan {
    Then(Ident("do"), 27, Then(ParensOpen, 28, ServicePlan5()))
  }

  function ServicePlan5(): Plan {
    Then(Ident("something"), 37, Then(ParensClose, 38, ServicePlan6()))
  }

  function ServicePlan6(): Plan {
    Then(Whitespace, 39, Then(Ident("returns"), 46, ServicePlan7()))
  }

  function ServicePlan7(): Plan {
    Then(Whitespace, 47, Then(ParensOpen, 48, ServicePlan8()))
  }

  function ServicePlan8(): Plan {
    Then(Ident("null"), 52, Then(ParensClose, 53, ServicePlan9()))
  }

  function ServicePlan9(): Plan {
    Then(Semicolon, 54, Then(Whitespace, 64, ServicePlan10()))
  }

  function ServicePlan10(): Plan {
    Then(BraceClose, 65, Done)
  }

  /** Characters 0 to 7 of the text of `solo_service_test`, from the literal text. */
  lemma ServiceTextIs0(s: seq<char>)
    requires s == ServiceSource
    ensures ServiceChars0(s)
  {
  }

  /** Characters 8 to 10 of the text of `solo_service_test`, from the literal text. */
  lemma ServiceTextIs1(s: seq<char>)
    requires s == ServiceSource
    ensures ServiceChars1(s)
  {
  }

  /** Characters 11 to 20 of the text of `solo_service_test`, from the literal text. */
  lemma ServiceTextIs2(s: seq<char>)
    requires s == ServiceSource
    ensures ServiceChars2(s)
  {
  }

  /** Characters 21 to 24 of the text of `solo_service_test`, from the literal text. */
  lemma ServiceTextIs3(s: seq<char>)
    requires s == ServiceSource
    ensures ServiceChars3(s)
  {
  }

  /** Characters 25 to 27 of the text of `solo_service_test`, from the literal text. */
  lemma ServiceTextIs4(s: seq<char>)
    requires s == ServiceSource
    ensures ServiceChars4(s)
  {
  }

  /** Characters 28 to 37 of the text of `solo_service_test`, from the literal text. */
  lemma ServiceTextIs5(s: seq<char>)
    requires s == ServiceSource
    ensures ServiceChars5(s)
  {
  }

  /** Characters 38 to 45 of the text of `solo_service_test`, from the literal text. */
  lemma ServiceTextIs6(s: seq<char>)
    requires s == ServiceSource
    ensures ServiceChars6(s)
  {
  }

  /** Characters 46 to 47 of the text of `solo_service_test`, from the literal text. */
  lemma ServiceTextIs7(s: seq<char>)
    requires s == ServiceSource
    ensures ServiceChars7(s)
  {
  }

  /** Characters 48 to 52 of the text of `solo_service_test`, from the literal text. */
  lemma ServiceTextIs8(s: seq<char>)
    requires s == ServiceSource
    ensures ServiceChars8(s)
  {
  }

  /** Characters 53 to 63 of the text of `solo_service_test`, from the literal text. */
  lemma ServiceTextIs9(s: seq<char>)
    requires s == ServiceSource
    ensures ServiceChars9(s)
  {
  }

  /** Characters 64 to 64 of the text of `solo_service_test`, from the literal text. */
  lemma ServiceTextIs10(s: seq<char>)
    requires s == ServiceSource
    ensures ServiceChars10(s)
  {
  }

  /** The literal text of the text of `solo_service_test`, character by character. */
  lemma ServiceTextIs(s: seq<char>)
    requires s == ServiceSource
    ensures ServiceText(s)
  {
    ServiceTextIs0(s);
    ServiceTextIs1(s);
    ServiceTextIs2(s);
    ServiceTextIs3(s);
    ServiceTextIs4(s);
    ServiceTextIs5(s);
    ServiceTextIs6(s);
    ServiceTextIs7(s);
    ServiceTextIs8(s);
    ServiceTextIs9(s);
    ServiceTextIs10(s);
  }

  /** From position 64 on, the text of `solo_service_test` scans as planned. */
  lemma ServiceScans10(s: seq<char>)
    requires ServiceChars10(s)
    ensures ScansAs(s, 64, Then(BraceClose, 65, Done))
  {
    ScanPunctuationAt(s, 64);
  }

  /** From position 53 on, the text of `solo_service_test` scans as planned. */
  lemma ServiceScans9(s: seq<char>, tail: Plan)
    requires ServiceChars9(s) && s[64] == '}'
    requires ScansAs(s, 64, tail)
    ensures ScansAs(s, 53, Then(Semicolon, 54, Then(Whitespace, 64, tail)))
  {
    assert s[54..64] == "\n    \n    ";
    assert forall k :: 54 <= k < 64 ==> s[k] == s[54..64][k - 54];
    ScanWhitespaceAt(s, 54, 10);
    ScanPunctuationAt(s, 53);
  }

  /** From position 48 on, the text of `solo_service_test` scans as planned. */
  lemma ServiceScans8(s: seq<char>, tail: Plan)
    requires ServiceChars8(s) && s[53] == ';'
    requires ScansAs(s, 53, tail)
    ensures ScansAs(s, 48, Then(Ident("null"), 52, Then(ParensClose, 53, tail)))
  {
    assert s[48..52] == "null";
    assert forall k :: 48 <= k < 52 ==> s[k] == s[48..52][k - 48];
    ScanPunctuationAt(s, 52);
    ScanIdentAt(s, 48, 4);
  }

  /** From position 46 on, the text of `solo_service_test` scans as planned. */
  lemma ServiceScans7(s: seq<char>, tail: Plan)
    requires ServiceChars7(s) && s[48] == 'n'
    requires ScansAs(s, 48, tail)
    ensures ScansAs(s, 46, Then(Whitespace, 47, Then(ParensOpen, 48, tail)))
  {
    ScanPunctuationAt(s, 47);
    ScanWhitespaceAt(s, 46, 1);
  }

  /** From position 38 on, the text of `solo_service_test` scans as planned. */
  lemma ServiceScans6(s: seq<char>, tail: Plan)
    requires ServiceChars6(s) && s[46] == ' '
    requires ScansAs(s, 46, tail)
    ensures ScansAs(s, 38, Then(Whitespace, 39, Then(Ident("returns"), 46, tail)))
  {
    assert s[39..46] == "returns";
    assert forall k :: 39 <= k < 46 ==> s[k] == s[39..46][k - 39];
    ScanIdentAt(s, 39, 7);
    ScanWhitespaceAt(s, 38, 1);
  }

  /** From position 28 on, the text of `solo_service_test` scans as planned. */
  lemma ServiceScans5(s: seq<char>, tail: Plan)
    requires ServiceChars5(s) && s[38] == ' '
    requires ScansAs(s, 38, tail)
    ensures ScansAs(s, 28, Then(Ident("something"), 37, Then(ParensClose, 38, tail)))
  {
    assert s[28..37] == "something";
    assert forall k :: 28 <= k < 37 ==> s[k] == s[28..37][k - 28];
    ScanPunctuationAt(s, 37);
    ScanIdentAt(s, 28, 9);
  }

  /** From position 25 on, the text of `solo_service_test` scans as planned. */
  lemma ServiceScans4(s: seq<char>, tail: Plan)
    requires ServiceChars4(s) && s[28] == 's'
    requires ScansAs(s, 28, tail)
    ensures ScansAs(s, 25, Then(Ident("do"), 27, Then(ParensOpen, 28, tail)))
  {
    assert s[25..27] == "do";
    assert forall k :: 25 <= k < 27 ==> s[k] == s[25..27][k - 25];
    ScanPunctuationAt(s, 27);
    ScanIdentAt(s, 25, 2);
  }

  /** From position 21 on, the text of `solo_service_test` scans as planned. */
  lemma ServiceScans3(s: seq<char>, tail: Plan)
    requires ServiceChars3(s) && s[25] == 'd'
    requires ScansAs(s, 25, tail)
    ensures ScansAs(s, 21, Then(Ident("rpc"), 24, Then(Whitespace, 25, tail)))
  {
    assert s[21..24] == "rpc";
    assert forall k :: 21 <= k < 24 ==> s[k] == s[21..24][k - 21];
    ScanWhitespaceAt(s, 24, 1);
    ScanIdentAt(s, 21, 3);
  }

  /** From position 11 on, the text of `solo_service_test` scans as planned. */
  lemma ServiceScans2(s: seq<char>, tail: Plan)
    requires ServiceChars2(s) && s[21] == 'r'
    requires ScansAs(s, 21, tail)
    ensures ScansAs(s, 11, Then(BraceOpen, 12, Then(Whitespace, 21, tail)))
  {
    assert s[12..21] == "\n        ";
    assert forall k :: 12 <= k < 21 ==> s[k] == s[12..21][k - 12];
    ScanWhitespaceAt(s, 12, 9);
    ScanPunctuationAt(s, 11);
  }

  /** From position 8 on, the text of `solo_service_test` scans as planned. */
  lemma ServiceScans1(s: seq<char>, tail: Plan)
    requires ServiceChars1(s) && s[11] == '{'
    requires ScansAs(s, 11, tail)
    ensures ScansAs(s, 8, Then(Ident("hi"), 10, Then(Whitespace, 11, tail)))
  {
    assert s[8..10] == "hi";
    assert forall k :: 8 <= k < 10 ==> s[k] == s[8..10][k - 8];
    ScanWhitespaceAt(s, 10, 1);
    ScanIdentAt(s, 8, 2);
  }

  /** From position 0 on, the text of `solo_service_test` scans as planned. */
  lemma ServiceScans0(s: seq<char>, tail: Plan)
    requires ServiceChars0(s) && s[8] == 'h'
    requires ScansAs(s, 8, tail)
    ensures ScansAs(s, 0, Then(Ident("service"), 7, Then(Whitespace, 8, tail)))
  {
    assert s[0..7] == "service";
    assert forall k :: 0 <= k < 7 ==> s[k] == s[0..7][k];
    ScanWhitespaceAt(s, 7, 1);
    ScanIdentAt(s, 0, 7);
  }

  /** The whole of the text of `solo_service_test` scans as planned. */
  lemma ServiceScans(s: seq<char>)
    requires ServiceText(s)
    ensures ScansAs(s, 0, ServicePlan0())
  {
    ServiceScans10(s);
    assert ServiceChars10(s);
    ServiceScans9(s, ServicePlan10());
    assert ServiceChars9(s);
    ServiceScans8(s, ServicePlan9());
    assert ServiceChars8(s);
    ServiceScans7(s, ServicePlan8());
    assert ServiceChars7(s);
    ServiceScans6(s, ServicePlan7());
    assert ServiceChars6(s);
    ServiceScans5(s, ServicePlan6());
    assert ServiceChars5(s);
    ServiceScans4(s, ServicePlan5());
    assert ServiceChars4(s);
    ServiceScans3(s, ServicePlan4());
    assert ServiceChars3(s);
    ServiceScans2(s, ServicePlan3());
    assert ServiceChars2(s);
    ServiceScans1(s, ServicePlan2());
    assert ServiceChars1(s);
    ServiceScans0(s, ServicePlan1());
  }

  /** Tokens 0 to 1 of the text of `solo_service_test`, where the tokens from 0 on are planned. */
  lemma ServicePlanTokens0(ts: seq<Token>)
    requires 0 <= |ts| && ts[0..] == PlanTokens(ServicePlan0())
    ensures ts[0] == Ident("service") && ts[1] == Whitespace && 2 <= |ts| && ts[2..] == PlanTokens(ServicePlan1())
  {
    assert PlanTokens(ServicePlan0()) == [Ident("service"), Whitespace] + PlanTokens(ServicePlan1());
    assert ts[0..][2..] == ts[2..];
    assert ts[0] == ts[0..][0];
    assert ts[1] == ts[0..][1];
  }

  /** Tokens 2 to 3 of the text of `solo_service_test`, where the tokens from 2 on are planned. */
  lemma ServicePlanTokens1(ts: seq<Token>)
    requires 2 <= |ts| && ts[2..] == PlanTokens(ServicePlan1())
    ensures ts[2] == Ident("hi") && ts[3] == Whitespace && 4 <= |ts| && ts[4..] == PlanTokens(ServicePlan2())
  {
    assert PlanTokens(ServicePlan1()) == [Ident("hi"), Whitespace] + PlanTokens(ServicePlan2());
    assert ts[2..][2..] == ts[4..];
    assert ts[2] == ts[2..][0];
    assert ts[3] == ts[2..][1];
  }

  /** Tokens 4 to 5 of the text of `solo_service_test`, where the tokens from 4 on are planned. */
  lemma ServicePlanTokens2(ts: seq<Token>)
    requires 4 <= |ts| && ts[4..] == PlanTokens(ServicePlan2())
    ensures ts[4] == BraceOpen && ts[5] == Whitespace && 6 <= |ts| && ts[6..] == PlanTokens(ServicePlan3())
  {
    assert PlanTokens(ServicePlan2()) == [BraceOpen, Whitespace] + PlanTokens(ServicePlan3());
    assert ts[4..][2..] == ts[6..];
    assert ts[4] == ts[4..][0];
    assert ts[5] == ts[4..][1];
  }

  /** Tokens 6 to 7 of the text of `solo_service_test`, where the tokens from 6 on are planned. */
  lemma ServicePlanTokens3(ts: seq<Token>)
    requires 6 <= |ts| && ts[6..] == PlanTokens(ServicePlan3())
    ensures ts[6] == Ident("rpc") && ts[7] == Whitespace && 8 <= |ts| && ts[8..] == PlanTokens(ServicePlan4())
  {
    assert PlanTokens(ServicePlan3()) == [Ident("rpc"), Whitespace] + PlanTokens(ServicePlan4());
    assert ts[6..][2..] == ts[8..];
    assert ts[6] == ts[6..][0];
    assert ts[7] == ts[6..][1];
  }

  /** Tokens 8 to 9 of the text of `solo_service_test`, where the tokens from 8 on are planned. */
  lemma ServicePlanTokens4(ts: seq<Token>)
    requires 8 <= |ts| && ts[8..] == PlanTokens(ServicePlan4())
    ensures ts[8] == Ident("do") && ts[9] == ParensOpen && 10 <= |ts| && ts[10..] == PlanTokens(ServicePlan5())
  {
    assert PlanTokens(ServicePlan4()) == [Ident("do"), ParensOpen] + PlanTokens(ServicePlan5());
    assert ts[8..][2..] == ts[10..];
    assert ts[8] == ts[8..][0];
    assert ts[9] == ts[8..][1];
  }

  /** Tokens 10 to 11 of the text of `solo_service_test`, where the tokens from 10 on are planned. */
  lemma ServicePlanTokens5(ts: seq<Token>)
    requires 10 <= |ts| && ts[10..] == PlanTokens(ServicePlan5())
    ensures ts[10] == Ident("something") && ts[11] == ParensClose && 12 <= |ts| && ts[12..] == PlanTokens(ServicePlan6())
  {
    assert PlanTokens(ServicePlan5()) == [Ident("something"), ParensClose] + PlanTokens(ServicePlan6());
    assert ts[10..][2..] == ts[12..];
    assert ts[10] == ts[10..][0];
    assert ts[11] == ts[10..][1];
  }

  /** Tokens 12 to 13 of the text of `solo_service_test`, where the tokens from 12 on are planned. */
  lemma ServicePlanTokens6(ts: seq<Token>)
    requires 12 <= |ts| && ts[12..] == PlanTokens(ServicePlan6())
    ensures ts[12] == Whitespace && ts[13] == Ident("returns") && 14 <= |ts| && ts[14..] == PlanTokens(ServicePlan7())
  {
    assert PlanTokens(ServicePlan6()) == [Whitespace, Ident("returns")] + PlanTokens(ServicePlan7());
    assert ts[12..][2..] == ts[14..];
    assert ts[12] == ts[12..][0];
    assert ts[13] == ts[12..][1];
  }

  /** Tokens 14 to 15 of the text of `solo_service_test`, where the tokens from 14 on are planned. */
  lemma ServicePlanTokens7(ts: seq<Token>)
    requires 14 <= |ts| && ts[14..] == PlanTokens(ServicePlan7())
    ensures ts[14] == Whitespace && ts[15] == ParensOpen && 16 <= |ts| && ts[16..] == PlanTokens(ServicePlan8())
  {
    assert PlanTokens(ServicePlan7()) == [Whitespace, ParensOpen] + PlanTokens(ServicePlan8());
    assert ts[14..][2..] == ts[16..];
    assert ts[14] == ts[14..][0];
    assert ts[15] == ts[14..][1];
  }

  /** Tokens 16 to 17 of the text of `solo_service_test`, where the tokens from 16 on are planned. */
  lemma ServicePlanTokens8(ts: seq<Token>)
    requires 16 <= |ts| && ts[16..] == PlanTokens(ServicePlan8())
    ensures ts[16] == Ident("null") && ts[17] == ParensClose && 18 <= |ts| && ts[18..] == PlanTokens(ServicePlan9())
  {
    assert PlanTokens(ServicePlan8()) == [Ident("null"), ParensClose] + PlanTokens(ServicePlan9());
    assert ts[16..][2..] == ts[18..];
    assert ts[16] == ts[16..][0];
    assert ts[17] == ts[16..][1];
  }

  /** Tokens 18 to 19 of the text of `solo_service_test`, where the tokens from 18 on are planned. */
  lemma ServicePlanTokens9(ts: seq<Token>)
    requires 18 <= |ts| && ts[18..] == PlanTokens(ServicePlan9())
    ensures ts[18] == Semicolon && ts[19] == Whitespace && 20 <= |ts| && ts[20..] == PlanTokens(ServicePlan10())
  {
    assert PlanTokens(ServicePlan9()) == [Semicolon, Whitespace] + PlanTokens(ServicePlan10());
    assert ts[18..][2..] == ts[20..];
    assert ts[18] == ts[18..][0];
    assert ts[19] == ts[18..][1];
  }

  /** Tokens 20 to 20 of the text of `solo_service_test`, where the tokens from 20 on are planned. */
  lemma ServicePlanTokens10(ts: seq<Token>)
    requires 20 <= |ts| && ts[20..] == PlanTokens(ServicePlan10())
    ensures ts[20] == BraceClose && |ts| == 21
  {
    assert PlanTokens(ServicePlan10()) == [BraceClose];
    assert ts[20] == ts[20..][0];
  }

  /** The planned tokens, one by one. */
  lemma ServicePlanStream(ts: seq<Token>)
    requires ts == PlanTokens(ServicePlan0())
    ensures ServiceStream(ts)
  {
    assert ts[0..] == ts;
    ServicePlanTokens0(ts);
    ServicePlanTokens1(ts);
    ServicePlanTokens2(ts);
    ServicePlanTokens3(ts);
    ServicePlanTokens4(ts);
    ServicePlanTokens5(ts);
    ServicePlanTokens6(ts);
    ServicePlanTokens7(ts);
    ServicePlanTokens8(ts);
    ServicePlanTokens9(ts);
    ServicePlanTokens10(ts);
  }

  /** The tokens `next_token` reads from the text of `solo_service_test`. */
  lemma ServiceLexes(s: seq<char>)
    requires s == ServiceSource
    ensures ServiceStream(Lex(s))
  {
    ServiceTextIs(s);
    ServiceScans(s);
    LexScans(s, 0, ServicePlan0());
    assert s[0..] == s;
    ServicePlanStream(Lex(s));
  }
}
