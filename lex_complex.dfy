/**
 * The text of `complex_test` in src/parser.rs, read by `next_token` one token at a time:
 * its characters are described token by token, each run of characters is
 * scanned on its own, and the scans are chained into the whole token list.
 */
module LexComplex {
  import opened Ast
  import opened Lexer
  import opened LexerExamples

  /** The tokens of the text of `complex_test`, one by one. */
  predicate ComplexStream(ts: seq<Token>) {
    && |ts| == 32 && ts[0] == Whitespace && ts[1] == Ident("syntax") && ts[2] == Whitespace
    && ts[3] == Equals && ts[4] == Whitespace && ts[5] == Quote && ts[6] == Ident("proto3")
    && ts[7] == Quote && ts[8] == Semicolon && ts[9] == Whitespace
    && ts[10] == Comment("// Some comment") && ts[11] == Ident("service") && ts[12] == Whitespace
    && ts[13] == Ident("hi") && ts[14] == Whitespace && ts[15] == BraceOpen && ts[16] == Whitespace
    && ts[17] == Ident("rpc") && ts[18] == Whitespace && ts[19] == Ident("do") && ts[20] == ParensOpen
    && ts[21] == Ident("something") && ts[22] == ParensClose && ts[23] == Whitespace
    && ts[24] == Ident("returns") && ts[25] == Whitespace && ts[26] == ParensOpen
    && ts[27] == Ident("null") && ts[28] == ParensClose && ts[29] == Semicolon && ts[30] == Whitespace
    && ts[31] == BraceClose
  }

  /** The text of `complex_test`, written as a balanced concatenation of short pieces. */
  const ComplexSource: string :=
    (("\n" + ("syntax" + " =")) + ((" \"proto3\";\n" + "\n") + ("// Some" + " comment\n"))) +
    ((("service" + " hi {\n") + ("    rpc" + " do(something)")) + ((" returns" +
    " (null);\n") + ("\n" + "}")))

  /** Characters 0 to 6 of the text of `complex_test`. */
  predicate ComplexChars0(s: seq<char>) {
    && |s| == 90 && s[0] == '\n' && s[1] == 's' && s[2] == 'y' && s[3] == 'n' && s[4] == 't'
    && s[5] == 'a' && s[6] == 'x'
  }

  /** Characters 7 to 8 of the text of `complex_test`. */
  predicate ComplexChars1(s: seq<char>) {
    && |s| == 90 && s[7] == ' ' && s[8] == '='
  }

  /** Characters 9 to 10 of the text of `complex_test`. */
  predicate ComplexChars2(s: seq<char>) {
    && |s| == 90 && s[9] == ' ' && s[10] == '"'
  }

  /** Characters 11 to 17 of the text of `complex_test`. */
  predicate ComplexChars3(s: seq<char>) {
    && |s| == 90 && s[11] == 'p' && s[12] == 'r' && s[13] == 'o' && s[14] == 't' && s[15] == 'o'
    && s[16] == '3' && s[17] == '"'
  }

  /** Characters 18 to 20 of the text of `complex_test`. */
  predicate ComplexChars4(s: seq<char>) {
    && |s| == 90 && s[18] == ';' && s[19] == '\n' && s[20] == '\n'
  }

  /** Characters 21 to 36 of the text of `complex_test`. */
  predicate ComplexChars5(s: seq<char>) {
    && |s| == 90 && s[21] == '/' && s[22] == '/' && s[23] == ' ' && s[24] == 'S' && s[25] == 'o'
    && s[26] == 'm' && s[27] == 'e' && s[28] == ' ' && s[29] == 'c' && s[30] == 'o' && s[31] == 'm'
    && s[32] == 'm' && s[33] == 'e' && s[34] == 'n' && s[35] == 't' && s[36] == '\n'
  }

  /** Characters 37 to 44 of the text of `complex_test`. */
  predicate ComplexChars6(s: seq<char>) {
    && |s| == 90 && s[37] == 's' && s[38] == 'e' && s[39] == 'r' && s[40] == 'v' && s[41] == 'i'
    && s[42] == 'c' && s[43] == 'e' && s[44] == ' '
  }

  /** Characters 45 to 47 of the text of `complex_test`. */
  predicate ComplexChars7(s: seq<char>) {
    && |s| == 90 && s[45] == 'h' && s[46] == 'i' && s[47] == ' '
  }

  /** Characters 48 to 53 of the text of `complex_test`. */
  predicate ComplexChars8(s: seq<char>) {
    && |s| == 90 && s[48] == '{' && s[49] == '\n' && s[50] == ' ' && s[51] == ' ' && s[52] == ' '
    && s[53] == ' '
  }

  /** Characters 54 to 57 of the text of `complex_test`. */
  predicate ComplexChars9(s: seq<char>) {
    && |s| == 90 && s[54] == 'r' && s[55] == 'p' && s[56] == 'c' && s[57] == ' '
  }

  /** Characters 58 to 60 of the text of `complex_test`. */
  predicate ComplexChars10(s: seq<char>) {
    && |s| == 90 && s[58] == 'd' && s[59] == 'o' && s[60] == '('
  }

  /** Characters 61 to 70 of the text of `complex_test`. */
  predicate ComplexChars11(s: seq<char>) {
    && |s| == 90 && s[61] == 's' && s[62] == 'o' && s[63] == 'm' && s[64] == 'e' && s[65] == 't'
    && s[66] == 'h' && s[67] == 'i' && s[68] == 'n' && s[69] == 'g' && s[70] == ')'
  }

  /** Characters 71 to 78 of the text of `complex_test`. */
  predicate ComplexChars12(s: seq<char>) {
    && |s| == 90 && s[71] == ' ' && s[72] == 'r' && s[73] == 'e' && s[74] == 't' && s[75] == 'u'
    && s[76] == 'r' && s[77] == 'n' && s[78] == 's'
  }

  /** Characters 79 to 80 of the text of `complex_test`. */
  predicate ComplexChars13(s: seq<char>) {
    && |s| == 90 && s[79] == ' ' && s[80] == '('
  }

  /** Characters 81 to 85 of the text of `complex_test`. */
  predicate ComplexChars14(s: seq<char>) {
    && |s| == 90 && s[81] == 'n' && s[82] == 'u' && s[83] == 'l' && s[84] == 'l' && s[85] == ')'
  }

  /** Characters 86 to 88 of the text of `complex_test`. */
  predicate ComplexChars15(s: seq<char>) {
    && |s| == 90 && s[86] == ';' && s[87] == '\n' && s[88] == '\n'
  }

  /** Characters 89 to 89 of the text of `complex_test`. */
  predicate ComplexChars16(s: seq<char>) {
    && |s| == 90 && s[89] == '}'
  }

  /** The characters of the text of `complex_test`, a few tokens at a time. */
  predicate ComplexText(s: seq<char>) {
    && ComplexChars0(s) && ComplexChars1(s) && ComplexChars2(s) && ComplexChars3(s) && ComplexChars4(s)
    && ComplexChars5(s) && ComplexChars6(s) && ComplexChars7(s) && ComplexChars8(s) && ComplexChars9(s)
    && ComplexChars10(s) && ComplexChars11(s) && ComplexChars12(s) && ComplexChars13(s)
    && ComplexChars14(s) && ComplexChars15(s) && ComplexChars16(s)
  }

  /** The tokens of the text of `complex_test` and where each ends, a few at a time. */
  function ComplexPlan0(): Plan {
    Then(Whitespace, 1, Then(Ident("syntax"), 7, ComplexPlan1()))
  }

  function ComplexPlan1(): Plan {
    Then(Whitespace, 8, Then(Equals, 9, ComplexPlan2()))
  }

  function ComplexPlan2(): Plan {
    Then(Whitespace, 10, Then(Quote, 11, ComplexPlan3()))
  }

  function ComplexPlan3(): Plan {
    Then(Ident("proto3"), 17, Then(Quote, 18, ComplexPlan4()))
  }

  function ComplexPlan4(): Plan {
    Then(Semicolon, 19, Then(Whitespace, 21, ComplexPlan5()))
  }

  function ComplexPlan5(): Plan {
    Then(Comment("// Some comment"), 37, ComplexPlan6())
  }

  function ComplexPlan6(): Plan {
    Then(Ident("service"), 44, Then(Whitespace, 45, ComplexPlan7()))
  }

  function ComplexPlan7(): Plan {
    Then(Ident("hi"), 47, Then(Whitespace, 48, ComplexPlan8()))
  }

  function ComplexPlan8(): Plan {
    Then(BraceOpen, 49, Then(Whitespace, 54, ComplexPlan9()))
  }

  function ComplexPlan9(): Plan {
    Then(Ident("rpc"), 57, Then(Whitespace, 58, ComplexPlan10()))
  }

  function ComplexPlan10(): Plan {
    Then(Ident("do"), 60, Then(ParensOpen, 61, ComplexPlan11()))
  }

  function ComplexPlan11(): Plan {
    Then(Ident("something"), 70, Then(ParensClose, 71, ComplexPlan12()))
  }

  function ComplexPlan12(): Plan {
    Then(Whitespace, 72, Then(Ident("returns"), 79, ComplexPlan13()))
  }

  function ComplexPlan13(): Plan {
    Then(Whitespace, 80, Then(ParensOpen, 81, ComplexPlan14()))
  }

  function ComplexPlan14(): Plan {
    Then(Ident("null"), 85, Then(ParensClose, 86, ComplexPlan15()))
  }

  function ComplexPlan15(): Plan {
    Then(Semicolon, 87, Then(Whitespace, 89, ComplexPlan16()))
  }

  function ComplexPlan16(): Plan {
    Then(BraceClose, 90, Done)
  }

  /** Characters 0 to 6 of the text of `complex_test`, from the literal text. */
  lemma ComplexTextIs0(s: seq<char>)
    requires s == ComplexSource
    ensures ComplexChars0(s)
  {
  }

  /** Characters 7 to 8 of the text of `complex_test`, from the literal text. */
  lemma ComplexTextIs1(s: seq<char>)
    requires s == ComplexSource
    ensures ComplexChars1(s)
  {
  }

  /** Characters 9 to 10 of the text of `complex_test`, from the literal text. */
  lemma ComplexTextIs2(s: seq<char>)
    requires s == ComplexSource
    ensures ComplexChars2(s)
  {
  }

  /** Characters 11 to 17 of the text of `complex_test`, from the literal text. */
  lemma ComplexTextIs3(s: seq<char>)
    requires s == ComplexSource
    ensures ComplexChars3(s)
  {
  }

  /** Characters 18 to 20 of the text of `complex_test`, from the literal text. */
  lemma ComplexTextIs4(s: seq<char>)
    requires s == ComplexSource
    ensures ComplexChars4(s)
  {
  }

  /** Characters 21 to 36 of the text of `complex_test`, from the literal text. */
  lemma ComplexTextIs5(s: seq<char>)
    requires s == ComplexSource
    ensures ComplexChars5(s)
  {
  }

  /** Characters 37 to 44 of the text of `complex_test`, from the literal text. */
  lemma ComplexTextIs6(s: seq<char>)
    requires s == ComplexSource
    ensures ComplexChars6(s)
  {
  }

  /** Characters 45 to 47 of the text of `complex_test`, from the literal text. */
  lemma ComplexTextIs7(s: seq<char>)
    requires s == ComplexSource
    ensures ComplexChars7(s)
  {
  }

  /** Characters 48 to 53 of the text of `complex_test`, from the literal text. */
  lemma ComplexTextIs8(s: seq<char>)
    requires s == ComplexSource
    ensures ComplexChars8(s)
  {
  }

  /** Characters 54 to 57 of the text of `complex_test`, from the literal text. */
  lemma ComplexTextIs9(s: seq<char>)
    requires s == ComplexSource
    ensures ComplexChars9(s)
  {
  }

  /** Characters 58 to 60 of the text of `complex_test`, from the literal text. */
  lemma ComplexTextIs10(s: seq<char>)
    requires s == ComplexSource
    ensures ComplexChars10(s)
  {
  }

  /** Characters 61 to 70 of the text of `complex_test`, from the literal text. */
  lemma ComplexTextIs11(s: seq<char>)
    requires s == ComplexSource
    ensures ComplexChars11(s)
  {
  }

  /** Characters 71 to 78 of the text of `complex_test`, from the literal text. */
  lemma ComplexTextIs12(s: seq<char>)
    requires s == ComplexSource
    ensures ComplexChars12(s)
  {
  }

  /** Characters 79 to 80 of the text of `complex_test`, from the literal text. */
  lemma ComplexTextIs13(s: seq<char>)
    requires s == ComplexSource
    ensures ComplexChars13(s)
  {
  }

  /** Characters 81 to 85 of the text of `complex_test`, from the literal text. */
  lemma ComplexTextIs14(s: seq<char>)
    requires s == ComplexSource
    ensures ComplexChars14(s)
  {
  }

  /** Characters 86 to 88 of the text of `complex_test`, from the literal text. */
  lemma ComplexTextIs15(s: seq<char>)
    requires s == ComplexSource
    ensures ComplexChars15(s)
  {
  }

  /** Characters 89 to 89 of the text of `complex_test`, from the literal text. */
  lemma ComplexTextIs16(s: seq<char>)
    requires s == ComplexSource
    ensures ComplexChars16(s)
  {
  }

  /** The literal text of the text of `complex_test`, character by character. */
  lemma ComplexTextIs(s: seq<char>)
    requires s == ComplexSource
    ensures ComplexText(s)
  {
    ComplexTextIs0(s);
    ComplexTextIs1(s);
    ComplexTextIs2(s);
    ComplexTextIs3(s);
    ComplexTextIs4(s);
    ComplexTextIs5(s);
    ComplexTextIs6(s);
    ComplexTextIs7(s);
    ComplexTextIs8(s);
    ComplexTextIs9(s);
    ComplexTextIs10(s);
    ComplexTextIs11(s);
    ComplexTextIs12(s);
    ComplexTextIs13(s);
    ComplexTextIs14(s);
    ComplexTextIs15(s);
    ComplexTextIs16(s);
  }

  /** From position 89 on, the text of `complex_test` scans as planned. */
  lemma ComplexScans16(s: seq<char>)
    requires ComplexChars16(s)
    ensures ScansAs(s, 89, Then(BraceClose, 90, Done))
  {
    ScanPunctuationAt(s, 89);
  }

  /** From position 86 on, the text of `complex_test` scans as planned. */
  lemma ComplexScans15(s: seq<char>, tail: Plan)
    requires ComplexChars15(s) && s[89] == '}'
    requires ScansAs(s, 89, tail)
    ensures ScansAs(s, 86, Then(Semicolon, 87, Then(Whitespace, 89, tail)))
  {
    assert s[87..89] == "\n\n";
    assert forall k :: 87 <= k < 89 ==> s[k] == s[87..89][k - 87];
    ScanWhitespaceAt(s, 87, 2);
    ScanPunctuationAt(s, 86);
  }

  /** From position 81 on, the text of `complex_test` scans as planned. */
  lemma ComplexScans14(s: seq<char>, tail: Plan)
    requires ComplexChars14(s) && s[86] == ';'
    requires ScansAs(s, 86, tail)
    ensures ScansAs(s, 81, Then(Ident("null"), 85, Then(ParensClose, 86, tail)))
  {
    assert s[81..85] == "null";
    assert forall k :: 81 <= k < 85 ==> s[k] == s[81..85][k - 81];
    ScanPunctuationAt(s, 85);
    ScanIdentAt(s, 81, 4);
  }

  /** From position 79 on, the text of `complex_test` scans as planned. */
  lemma ComplexScans13(s: seq<char>, tail: Plan)
    requires ComplexChars13(s) && s[81] == 'n'
    requires ScansAs(s, 81, tail)
    ensures ScansAs(s, 79, Then(Whitespace, 80, Then(ParensOpen, 81, tail)))
  {
    ScanPunctuationAt(s, 80);
    ScanWhitespaceAt(s, 79, 1);
  }

  /** From position 71 on, the text of `complex_test` scans as planned. */
  lemma ComplexScans12(s: seq<char>, tail: Plan)
    requires ComplexChars12(s) && s[79] == ' '
    requires ScansAs(s, 79, tail)
    ensures ScansAs(s, 71, Then(Whitespace, 72, Then(Ident("returns"), 79, tail)))
  {
    assert s[72..79] == "returns";
    assert forall k :: 72 <= k < 79 ==> s[k] == s[72..79][k - 72];
    ScanIdentAt(s, 72, 7);
    ScanWhitespaceAt(s, 71, 1);
  }

  /** From position 61 on, the text of `complex_test` scans as planned. */
  lemma ComplexScans11(s: seq<char>, tail: Plan)
    requires ComplexChars11(s) && s[71] == ' '
    requires ScansAs(s, 71, tail)
    ensures ScansAs(s, 61, Then(Ident("something"), 70, Then(ParensClose, 71, tail)))
  {
    assert s[61..70] == "something";
    assert forall k :: 61 <= k < 70 ==> s[k] == s[61..70][k - 61];
    ScanPunctuationAt(s, 70);
    ScanIdentAt(s, 61, 9);
  }

  /** From position 58 on, the text of `complex_test` scans as planned. */
  lemma ComplexScans10(s: seq<char>, tail: Plan)
    requires ComplexChars10(s) && s[61] == 's'
    requires ScansAs(s, 61, tail)
    ensures ScansAs(s, 58, Then(Ident("do"), 60, Then(ParensOpen, 61, tail)))
  {
    assert s[58..60] == "do";
    assert forall k :: 58 <= k < 60 ==> s[k] == s[58..60][k - 58];
    ScanPunctuationAt(s, 60);
    ScanIdentAt(s, 58, 2);
  }

  /** From position 54 on, the text of `complex_test` scans as planned. */
  lemma ComplexScans9(s: seq<char>, tail: Plan)
    requires ComplexChars9(s) && s[58] == 'd'
    requires ScansAs(s, 58, tail)
    ensures ScansAs(s, 54, Then(Ident("rpc"), 57, Then(Whitespace, 58, tail)))
  {
    assert s[54..57] == "rpc";
    assert forall k :: 54 <= k < 57 ==> s[k] == s[54..57][k - 54];
    ScanWhitespaceAt(s, 57, 1);
    ScanIdentAt(s, 54, 3);
  }

  /** From position 48 on, the text of `complex_test` scans as planned. */
  lemma ComplexScans8(s: seq<char>, tail: Plan)
    requires ComplexChars8(s) && s[54] == 'r'
    requires ScansAs(s, 54, tail)
    ensures ScansAs(s, 48, Then(BraceOpen, 49, Then(Whitespace, 54, tail)))
  {
    assert s[49..54] == "\n    ";
    assert forall k :: 49 <= k < 54 ==> s[k] == s[49..54][k - 49];
    ScanWhitespaceAt(s, 49, 5);
    ScanPunctuationAt(s, 48);
  }

  /** From position 45 on, the text of `complex_test` scans as planned. */
  lemma ComplexScans7(s: seq<char>, tail: Plan)
    requires ComplexChars7(s) && s[48] == '{'
    requires ScansAs(s, 48, tail)
    ensures ScansAs(s, 45, Then(Ident("hi"), 47, Then(Whitespace, 48, tail)))
  {
    assert s[45..47] == "hi";
    assert forall k :: 45 <= k < 47 ==> s[k] == s[45..47][k - 45];
    ScanWhitespaceAt(s, 47, 1);
    ScanIdentAt(s, 45, 2);
  }

  /** From position 37 on, the text of `complex_test` scans as planned. */
  lemma ComplexScans6(s: seq<char>, tail: Plan)
    requires ComplexChars6(s) && s[45] == 'h'
    requires ScansAs(s, 45, tail)
    ensures ScansAs(s, 37, Then(Ident("service"), 44, Then(Whitespace, 45, tail)))
  {
    assert s[37..44] == "service";
    assert forall k :: 37 <= k < 44 ==> s[k] == s[37..44][k - 37];
    ScanWhitespaceAt(s, 44, 1);
    ScanIdentAt(s, 37, 7);
  }

  /** From position 21 on, the text of `complex_test` scans as planned. */
  lemma ComplexScans5(s: seq<char>, tail: Plan)
    requires ComplexChars5(s) && s[37] == 's'
    requires ScansAs(s, 37, tail)
    ensures ScansAs(s, 21, Then(Comment("// Some comment"), 37, tail))
  {
    assert s[21..36] == "// Some comment";
    assert forall k :: 21 <= k < 36 ==> s[k] == s[21..36][k - 21];
    ScanLineCommentAt(s, 21, 15);
  }

  /** From position 18 on, the text of `complex_test` scans as planned. */
  lemma ComplexScans4(s: seq<char>, tail: Plan)
    requires ComplexChars4(s) && s[21] == '/'
    requires ScansAs(s, 21, tail)
    ensures ScansAs(s, 18, Then(Semicolon, 19, Then(Whitespace, 21, tail)))
  {
    assert s[19..21] == "\n\n";
    assert forall k :: 19 <= k < 21 ==> s[k] == s[19..21][k - 19];
    ScanWhitespaceAt(s, 19, 2);
    ScanPunctuationAt(s, 18);
  }

  /** From position 11 on, the text of `complex_test` scans as planned. */
  lemma ComplexScans3(s: seq<char>, tail: Plan)
    requires ComplexChars3(s) && s[18] == ';'
    requires ScansAs(s, 18, tail)
    ensures ScansAs(s, 11, Then(Ident("proto3"), 17, Then(Quote, 18, tail)))
  {
    assert s[11..17] == "proto3";
    assert forall k :: 11 <= k < 17 ==> s[k] == s[11..17][k - 11];
    ScanPunctuationAt(s, 17);
    ScanIdentAt(s, 11, 6);
  }

  /** From position 9 on, the text of `complex_test` scans as planned. */
  lemma ComplexScans2(s: seq<char>, tail: Plan)
    requires ComplexChars2(s) && s[11] == 'p'
    requires ScansAs(s, 11, tail)
    ensures ScansAs(s, 9, Then(Whitespace, 10, Then(Quote, 11, tail)))
  {
    ScanPunctuationAt(s, 10);
    ScanWhitespaceAt(s, 9, 1);
  }

  /** From position 7 on, the text of `complex_test` scans as planned. */
  lemma ComplexScans1(s: seq<char>, tail: Plan)
    requires ComplexChars1(s) && s[9] == ' '
    requires ScansAs(s, 9, tail)
    ensures ScansAs(s, 7, Then(Whitespace, 8, Then(Equals, 9, tail)))
  {
    ScanPunctuationAt(s, 8);
    ScanWhitespaceAt(s, 7, 1);
  }

  /** From position 0 on, the text of `complex_test` scans as planned. */
  lemma ComplexScans0(s: seq<char>, tail: Plan)
    requires ComplexChars0(s) && s[7] == ' '
    requires ScansAs(s, 7, tail)
    ensures ScansAs(s, 0, Then(Whitespace, 1, Then(Ident("syntax"), 7, tail)))
  {
    assert s[1..7] == "syntax";
    assert forall k :: 1 <= k < 7 ==> s[k] == s[1..7][k - 1];
    ScanIdentAt(s, 1, 6);
    ScanWhitespaceAt(s, 0, 1);
  }

  /** The whole of the text of `complex_test` scans as planned. */
  lemma ComplexScans(s: seq<char>)
    requires ComplexText(s)
    ensures ScansAs(s, 0, ComplexPlan0())
  {
    ComplexScans16(s);
    assert ComplexChars16(s);
    ComplexScans15(s, ComplexPlan16());
    assert ComplexChars15(s);
    ComplexScans14(s, ComplexPlan15());
    assert ComplexChars14(s);
    ComplexScans13(s, ComplexPlan14());
    assert ComplexChars13(s);
    ComplexScans12(s, ComplexPlan13());
    assert ComplexChars12(s);
    ComplexScans11(s, ComplexPlan12());
    assert ComplexChars11(s);
    ComplexScans10(s, ComplexPlan11());
    assert ComplexChars10(s);
    ComplexScans9(s, ComplexPlan10());
    assert ComplexChars9(s);
    ComplexScans8(s, ComplexPlan9());
    assert ComplexChars8(s);
    ComplexScans7(s, ComplexPlan8());
    assert ComplexChars7(s);
    ComplexScans6(s, ComplexPlan7());
    assert ComplexChars6(s);
    ComplexScans5(s, ComplexPlan6());
    assert ComplexChars5(s);
    ComplexScans4(s, ComplexPlan5());
    assert ComplexChars4(s);
    ComplexScans3(s, ComplexPlan4());
    assert ComplexChars3(s);
    ComplexScans2(s, ComplexPlan3());
    assert ComplexChars2(s);
    ComplexScans1(s, ComplexPlan2());
    assert ComplexChars1(s);
    ComplexScans0(s, ComplexPlan1());
  }

  /** Tokens 0 to 1 of the text of `complex_test`, where the tokens from 0 on are planned. */
  lemma ComplexPlanTokens0(ts: seq<Token>)
    requires 0 <= |ts| && ts[0..] == PlanTokens(ComplexPlan0())
    ensures ts[0] == Whitespace && ts[1] == Ident("syntax") && 2 <= |ts| && ts[2..] == PlanTokens(ComplexPlan1())
  {
    assert PlanTokens(ComplexPlan0()) == [Whitespace, Ident("syntax")] + PlanTokens(ComplexPlan1());
    assert ts[0..][2..] == ts[2..];
    assert ts[0] == ts[0..][0];
    assert ts[1] == ts[0..][1];
  }

  /** Tokens 2 to 3 of the text of `complex_test`, where the tokens from 2 on are planned. */
  lemma ComplexPlanTokens1(ts: seq<Token>)
    requires 2 <= |ts| && ts[2..] == PlanTokens(ComplexPlan1())
    ensures ts[2] == Whitespace && ts[3] == Equals && 4 <= |ts| && ts[4..] == PlanTokens(ComplexPlan2())
  {
    assert PlanTokens(ComplexPlan1()) == [Whitespace, Equals] + PlanTokens(ComplexPlan2());
    assert ts[2..][2..] == ts[4..];
    assert ts[2] == ts[2..][0];
    assert ts[3] == ts[2..][1];
  }

  /** Tokens 4 to 5 of the text of `complex_test`, where the tokens from 4 on are planned. */
  lemma ComplexPlanTokens2(ts: seq<Token>)
    requires 4 <= |ts| && ts[4..] == PlanTokens(ComplexPlan2())
    ensures ts[4] == Whitespace && ts[5] == Quote && 6 <= |ts| && ts[6..] == PlanTokens(ComplexPlan3())
  {
    assert PlanTokens(ComplexPlan2()) == [Whitespace, Quote] + PlanTokens(ComplexPlan3());
    assert ts[4..][2..] == ts[6..];
    assert ts[4] == ts[4..][0];
    assert ts[5] == ts[4..][1];
  }

  /** Tokens 6 to 7 of the text of `complex_test`, where the tokens from 6 on are planned. */
  lemma ComplexPlanTokens3(ts: seq<Token>)
    requires 6 <= |ts| && ts[6..] == PlanTokens(ComplexPlan3())
    ensures ts[6] == Ident("proto3") && ts[7] == Quote && 8 <= |ts| && ts[8..] == PlanTokens(ComplexPlan4())
  {
    assert PlanTokens(ComplexPlan3()) == [Ident("proto3"), Quote] + PlanTokens(ComplexPlan4());
    assert ts[6..][2..] == ts[8..];
    assert ts[6] == ts[6..][0];
    assert ts[7] == ts[6..][1];
  }

  /** Tokens 8 to 9 of the text of `complex_test`, where the tokens from 8 on are planned. */
  lemma ComplexPlanTokens4(ts: seq<Token>)
    requires 8 <= |ts| && ts[8..] == PlanTokens(ComplexPlan4())
    ensures ts[8] == Semicolon && ts[9] == Whitespace && 10 <= |ts| && ts[10..] == PlanTokens(ComplexPlan5())
  {
    assert PlanTokens(ComplexPlan4()) == [Semicolon, Whitespace] + PlanTokens(ComplexPlan5());
    assert ts[8..][2..] == ts[10..];
    assert ts[8] == ts[8..][0];
    assert ts[9] == ts[8..][1];
  }

  /** Tokens 10 to 10 of the text of `complex_test`, where the tokens from 10 on are planned. */
  lemma ComplexPlanTokens5(ts: seq<Token>)
    requires 10 <= |ts| && ts[10..] == PlanTokens(ComplexPlan5())
    ensures ts[10] == Comment("// Some comment") && 11 <= |ts| && ts[11..] == PlanTokens(ComplexPlan6())
  {
    assert PlanTokens(ComplexPlan5()) == [Comment("// Some comment")] + PlanTokens(ComplexPlan6());
    assert ts[10..][1..] == ts[11..];
    assert ts[10] == ts[10..][0];
  }

  /** Tokens 11 to 12 of the text of `complex_test`, where the tokens from 11 on are planned. */
  lemma ComplexPlanTokens6(ts: seq<Token>)
    requires 11 <= |ts| && ts[11..] == PlanTokens(ComplexPlan6())
    ensures ts[11] == Ident("service") && ts[12] == Whitespace && 13 <= |ts| && ts[13..] == PlanTokens(ComplexPlan7())
  {
    assert PlanTokens(ComplexPlan6()) == [Ident("service"), Whitespace] + PlanTokens(ComplexPlan7());
    assert ts[11..][2..] == ts[13..];
    assert ts[11] == ts[11..][0];
    assert ts[12] == ts[11..][1];
  }

  /** Tokens 13 to 14 of the text of `complex_test`, where the tokens from 13 on are planned. */
  lemma ComplexPlanTokens7(ts: seq<Token>)
    requires 13 <= |ts| && ts[13..] == PlanTokens(ComplexPlan7())
    ensures ts[13] == Ident("hi") && ts[14] == Whitespace && 15 <= |ts| && ts[15..] == PlanTokens(ComplexPlan8())
  {
    assert PlanTokens(ComplexPlan7()) == [Ident("hi"), Whitespace] + PlanTokens(ComplexPlan8());
    assert ts[13..][2..] == ts[15..];
    assert ts[13] == ts[13..][0];
    assert ts[14] == ts[13..][1];
  }

  /** Tokens 15 to 16 of the text of `complex_test`, where the tokens from 15 on are planned. */
  lemma ComplexPlanTokens8(ts: seq<Token>)
    requires 15 <= |ts| && ts[15..] == PlanTokens(ComplexPlan8())
    ensures ts[15] == BraceOpen && ts[16] == Whitespace && 17 <= |ts| && ts[17..] == PlanTokens(ComplexPlan9())
  {
    assert PlanTokens(ComplexPlan8()) == [BraceOpen, Whitespace] + PlanTokens(ComplexPlan9());
    assert ts[15..][2..] == ts[17..];
    assert ts[15] == ts[15..][0];
    assert ts[16] == ts[15..][1];
  }

  /** Tokens 17 to 18 of the text of `complex_test`, where the tokens from 17 on are planned. */
  lemma ComplexPlanTokens9(ts: seq<Token>)
    requires 17 <= |ts| && ts[17..] == PlanTokens(ComplexPlan9())
    ensures ts[17] == Ident("rpc") && ts[18] == Whitespace && 19 <= |ts| && ts[19..] == PlanTokens(ComplexPlan10())
  {
    assert PlanTokens(ComplexPlan9()) == [Ident("rpc"), Whitespace] + PlanTokens(ComplexPlan10());
    assert ts[17..][2..] == ts[19..];
    assert ts[17] == ts[17..][0];
    assert ts[18] == ts[17..][1];
  }

  /** Tokens 19 to 20 of the text of `complex_test`, where the tokens from 19 on are planned. */
  lemma ComplexPlanTokens10(ts: seq<Token>)
    requires 19 <= |ts| && ts[19..] == PlanTokens(ComplexPlan10())
    ensures ts[19] == Ident("do") && ts[20] == ParensOpen && 21 <= |ts| && ts[21..] == PlanTokens(ComplexPlan11())
  {
    assert PlanTokens(ComplexPlan10()) == [Ident("do"), ParensOpen] + PlanTokens(ComplexPlan11());
    assert ts[19..][2..] == ts[21..];
    assert ts[19] == ts[19..][0];
    assert ts[20] == ts[19..][1];
  }

  /** Tokens 21 to 22 of the text of `complex_test`, where the tokens from 21 on are planned. */
  lemma ComplexPlanTokens11(ts: seq<Token>)
    requires 21 <= |ts| && ts[21..] == PlanTokens(ComplexPlan11())
    ensures ts[21] == Ident("something") && ts[22] == ParensClose && 23 <= |ts| && ts[23..] == PlanTokens(ComplexPlan12())
  {
    assert PlanTokens(ComplexPlan11()) == [Ident("something"), ParensClose] + PlanTokens(ComplexPlan12());
    assert ts[21..][2..] == ts[23..];
    assert ts[21] == ts[21..][0];
    assert ts[22] == ts[21..][1];
  }

  /** Tokens 23 to 24 of the text of `complex_test`, where the tokens from 23 on are planned. */
  lemma ComplexPlanTokens12(ts: seq<Token>)
    requires 23 <= |ts| && ts[23..] == PlanTokens(ComplexPlan12())
    ensures ts[23] == Whitespace && ts[24] == Ident("returns") && 25 <= |ts| && ts[25..] == PlanTokens(ComplexPlan13())
  {
    assert PlanTokens(ComplexPlan12()) == [Whitespace, Ident("returns")] + PlanTokens(ComplexPlan13());
    assert ts[23..][2..] == ts[25..];
    assert ts[23] == ts[23..][0];
    assert ts[24] == ts[23..][1];
  }

  /** Tokens 25 to 26 of the text of `complex_test`, where the tokens from 25 on are planned. */
  lemma ComplexPlanTokens13(ts: seq<Token>)
    requires 25 <= |ts| && ts[25..] == PlanTokens(ComplexPlan13())
    ensures ts[25] == Whitespace && ts[26] == ParensOpen && 27 <= |ts| && ts[27..] == PlanTokens(ComplexPlan14())
  {
    assert PlanTokens(ComplexPlan13()) == [Whitespace, ParensOpen] + PlanTokens(ComplexPlan14());
    assert ts[25..][2..] == ts[27..];
    assert ts[25] == ts[25..][0];
    assert ts[26] == ts[25..][1];
  }

  /** Tokens 27 to 28 of the text of `complex_test`, where the tokens from 27 on are planned. */
  lemma ComplexPlanTokens14(ts: seq<Token>)
    requires 27 <= |ts| && ts[27..] == PlanTokens(ComplexPlan14())
    ensures ts[27] == Ident("null") && ts[28] == ParensClose && 29 <= |ts| && ts[29..] == PlanTokens(ComplexPlan15())
  {
    assert PlanTokens(ComplexPlan14()) == [Ident("null"), ParensClose] + PlanTokens(ComplexPlan15());
    assert ts[27..][2..] == ts[29..];
    assert ts[27] == ts[27..][0];
    assert ts[28] == ts[27..][1];
  }

  /** Tokens 29 to 30 of the text of `complex_test`, where the tokens from 29 on are planned. */
  lemma ComplexPlanTokens15(ts: seq<Token>)
    requires 29 <= |ts| && ts[29..] == PlanTokens(ComplexPlan15())
    ensures ts[29] == Semicolon && ts[30] == Whitespace && 31 <= |ts| && ts[31..] == PlanTokens(ComplexPlan16())
  {
    assert PlanTokens(ComplexPlan15()) == [Semicolon, Whitespace] + PlanTokens(ComplexPlan16());
    assert ts[29..][2..] == ts[31..];
    assert ts[29] == ts[29..][0];
    assert ts[30] == ts[29..][1];
  }

  /** Tokens 31 to 31 of the text of `complex_test`, where the tokens from 31 on are planned. */
  lemma ComplexPlanTokens16(ts: seq<Token>)
    requires 31 <= |ts| && ts[31..] == PlanTokens(ComplexPlan16())
    ensures ts[31] == BraceClose && |ts| == 32
  {
    assert PlanTokens(ComplexPlan16()) == [BraceClose];
    assert ts[31] == ts[31..][0];
  }

  /** The planned tokens, one by one. */
  lemma ComplexPlanStream(ts: seq<Token>)
    requires ts == PlanTokens(ComplexPlan0())
    ensures ComplexStream(ts)
  {
    assert ts[0..] == ts;
    ComplexPlanTokens0(ts);
    ComplexPlanTokens1(ts);
    ComplexPlanTokens2(ts);
    ComplexPlanTokens3(ts);
    ComplexPlanTokens4(ts);
    ComplexPlanTokens5(ts);
    ComplexPlanTokens6(ts);
    ComplexPlanTokens7(ts);
    ComplexPlanTokens8(ts);
    ComplexPlanTokens9(ts);
    ComplexPlanTokens10(ts);
    ComplexPlanTokens11(ts);
    ComplexPlanTokens12(ts);
    ComplexPlanTokens13(ts);
    ComplexPlanTokens14(ts);
    ComplexPlanTokens15(ts);
    ComplexPlanTokens16(ts);
  }

  /** The tokens `next_token` reads from the text of `complex_test`. */
  lemma ComplexLexes(s: seq<char>)
    requires s == ComplexSource
    ensures ComplexStream(Lex(s))
  {
    ComplexTextIs(s);
    ComplexScans(s);
    LexScans(s, 0, ComplexPlan0());
    assert s[0..] == s;
    ComplexPlanStream(Lex(s));
  }
}
