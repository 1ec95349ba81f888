/**
 * The text of `solo_message_test` in src/parser.rs, read by `next_token` one token at a time:
 * its characters are described token by token, each run of characters is
 * scanned on its own, and the scans are chained into the whole token list.
 */
module LexMessage {
  import opened Ast
  import opened Lexer
  import opened LexerExamples

  /** Tokens 0 to 4 of the text of `solo_message_test`. */
  predicate MessageTokens0(ts: seq<Token>) {
    && 5 <= |ts| && ts[0] == Ident("message") && ts[1] == Whitespace && ts[2] == Ident("HiReq")
    && ts[3] == Whitespace && ts[4] == BraceOpen
  }

  /** Tokens 5 to 15 of the text of `solo_message_test`. */
  predicate MessageTokens1(ts: seq<Token>) {
    && 16 <= |ts| && ts[5] == Whitespace && ts[6] == Ident("optional") && ts[7] == Whitespace
    && ts[8] == Ident("string") && ts[9] == Whitespace && ts[10] == Ident("msg") && ts[11] == Whitespace
    && ts[12] == Equals && ts[13] == Whitespace && ts[14] == Number("1") && ts[15] == Semicolon
  }

  /** Tokens 16 to 21 of the text of `solo_message_test`. */
  predicate MessageTokens2(ts: seq<Token>) {
    && 22 <= |ts| && ts[16] == Whitespace && ts[17] == Ident("message") && ts[18] == Whitespace
    && ts[19] == Ident("inner") && ts[20] == Whitespace && ts[21] == BraceOpen
  }

  /** Tokens 22 to 30 of the text of `solo_message_test`. */
  predicate MessageTokens3(ts: seq<Token>) {
    && 31 <= |ts| && ts[22] == Whitespace && ts[23] == Ident("int32") && ts[24] == Whitespace
    && ts[25] == Ident("inner_field") && ts[26] == Whitespace && ts[27] == Equals
    && ts[28] == Whitespace && ts[29] == Number("1") && ts[30] == Semicolon
  }

  /** Tokens 31 to 32 of the text of `solo_message_test`. */
  predicate MessageTokens4(ts: seq<Token>) {
    && 33 <= |ts| && ts[31] == Whitespace && ts[32] == BraceClose
  }

  /** Tokens 33 to 41 of the text of `solo_message_test`. */
  predicate MessageTokens5(ts: seq<Token>) {
    && 42 <= |ts| && ts[33] == Whitespace && ts[34] == Ident("inner") && ts[35] == Whitespace
    && ts[36] == Ident("idx") && ts[37] == Whitespace && ts[38] == Equals && ts[39] == Whitespace
    && ts[40] == Number("2") && ts[41] == Semicolon
  }

  /** Tokens 42 to 43 of the text of `solo_message_test`. */
  predicate MessageTokens6(ts: seq<Token>) {
    && 44 <= |ts| && ts[42] == Whitespace && ts[43] == BraceClose
  }

  /** The tokens of the text of `solo_message_test`, a few at a time. */
  predicate MessageStream(ts: seq<Token>) {
    && |ts| == 44 && MessageTokens0(ts) && MessageTokens1(ts) && MessageTokens2(ts)
    && MessageTokens3(ts) && MessageTokens4(ts) && MessageTokens5(ts) && MessageTokens6(ts)
  }

  /** The text of `solo_message_test`, written as a balanced concatenation of short pieces. */
  const MessageSource: string :=
    ((("message" + (" HiReq" + " {\n")) + ("       " + (" optional" + " string"))) +
    ((" msg =" + (" 1;\n" + "       ")) + (" message" + (" inner" + " {\n")))) +
    ((("       " + ("    " + " int32")) + (" inner_field" + (" = 1;\n" + "       "))) +
    ((" }\n" + ("       " + " inner")) + (" idx =" + (" 2;\n" + "    }"))))

  /** Characters 0 to 7 of the text of `solo_message_test`. */
  predicate MessageChars0(s: seq<char>) {
    && |s| == 146 && s[0] == 'm' && s[1] == 'e' && s[2] == 's' && s[3] == 's' && s[4] == 'a'
    && s[5] == 'g' && s[6] == 'e' && s[7] == ' '
  }

  /** Characters 8 to 13 of the text of `solo_message_test`. */
  predicate MessageChars1(s: seq<char>) {
    && |s| == 146 && s[8] == 'H' && s[9] == 'i' && s[10] == 'R' && s[11] == 'e' && s[12] == 'q'
    && s[13] == ' '
  }

  /** Characters 14 to 23 of the text of `solo_message_test`. */
  predicate MessageChars2(s: seq<char>) {
    && |s| == 146 && s[14] == '{' && s[15] == '\n' && s[16] == ' ' && s[17] == ' ' && s[18] == ' '
    && s[19] == ' ' && s[20] == ' ' && s[21] == ' ' && s[22] == ' ' && s[23] == ' '
  }

  /** Characters 24 to 32 of the text of `solo_message_test`. */
  predicate MessageChars3(s: seq<char>) {
    && |s| == 146 && s[24] == 'o' && s[25] == 'p' && s[26] == 't' && s[27] == 'i' && s[28] == 'o'
    && s[29] == 'n' && s[30] == 'a' && s[31] == 'l' && s[32] == ' '
  }

  /** Characters 33 to 39 of the text of `solo_message_test`. */
  predicate MessageChars4(s: seq<char>) {
    && |s| == 146 && s[33] == 's' && s[34] == 't' && s[35] == 'r' && s[36] == 'i' && s[37] == 'n'
    && s[38] == 'g' && s[39] == ' '
  }

  /** Characters 40 to 43 of the text of `solo_message_test`. */
  predicate MessageChars5(s: seq<char>) {
    && |s| == 146 && s[40] == 'm' && s[41] == 's' && s[42] == 'g' && s[43] == ' '
  }

  /** Characters 44 to 45 of the text of `solo_message_test`. */
  predicate MessageChars6(s: seq<char>) {
    && |s| == 146 && s[44] == '=' && s[45] == ' '
  }

  /** Characters 46 to 47 of the text of `solo_message_test`. */
  predicate MessageChars7(s: seq<char>) {
    && |s| == 146 && s[46] == '1' && s[47] == ';'
  }

  /** Characters 48 to 56 of the text of `solo_message_test`. */
  predicate MessageChars8(s: seq<char>) {
    && |s| == 146 && s[48] == '\n' && s[49] == ' ' && s[50] == ' ' && s[51] == ' ' && s[52] == ' '
    && s[53] == ' ' && s[54] == ' ' && s[55] == ' ' && s[56] == ' '
  }

  /** Characters 57 to 64 of the text of `solo_message_test`. */
  predicate MessageChars9(s: seq<char>) {
    && |s| == 146 && s[57] == 'm' && s[58] == 'e' && s[59] == 's' && s[60] == 's' && s[61] == 'a'
    && s[62] == 'g' && s[63] == 'e' && s[64] == ' '
  }

  /** Characters 65 to 70 of the text of `solo_message_test`. */
  predicate MessageChars10(s: seq<char>) {
    && |s| == 146 && s[65] == 'i' && s[66] == 'n' && s[67] == 'n' && s[68] == 'e' && s[69] == 'r'
    && s[70] == ' '
  }

  /** Characters 71 to 84 of the text of `solo_message_test`. */
  predicate MessageChars11(s: seq<char>) {
    && |s| == 146 && s[71] == '{' && s[72] == '\n' && s[73] == ' ' && s[74] == ' ' && s[75] == ' '
    && s[76] == ' ' && s[77] == ' ' && s[78] == ' ' && s[79] == ' ' && s[80] == ' ' && s[81] == ' '
    && s[82] == ' ' && s[83] == ' ' && s[84] == ' '
  }

  /** Characters 85 to 90 of the text of `solo_message_test`. */
  predicate MessageChars12(s: seq<char>) {
    && |s| == 146 && s[85] == 'i' && s[86] == 'n' && s[87] == 't' && s[88] == '3' && s[89] == '2'
    && s[90] == ' '
  }

  /** Characters 91 to 102 of the text of `solo_message_test`. */
  predicate MessageChars13(s: seq<char>) {
    && |s| == 146 && s[91] == 'i' && s[92] == 'n' && s[93] == 'n' && s[94] == 'e' && s[95] == 'r'
    && s[96] == '_' && s[97] == 'f' && s[98] == 'i' && s[99] == 'e' && s[100] == 'l' && s[101] == 'd'
    && s[102] == ' '
  }

  /** Characters 103 to 104 of the text of `solo_message_test`. */
  predicate MessageChars14(s: seq<char>) {
    && |s| == 146 && s[103] == '=' && s[104] == ' '
  }

  /** Characters 105 to 106 of the text of `solo_message_test`. */
  predicate MessageChars15(s: seq<char>) {
    && |s| == 146 && s[105] == '1' && s[106] == ';'
  }

  /** Characters 107 to 116 of the text of `solo_message_test`. */
  predicate MessageChars16(s: seq<char>) {
    && |s| == 146 && s[107] == '\n' && s[108] == ' ' && s[109] == ' ' && s[110] == ' ' && s[111] == ' '
    && s[112] == ' ' && s[113] == ' ' && s[114] == ' ' && s[115] == ' ' && s[116] == '}'
  }

  /** Characters 117 to 130 of the text of `solo_message_test`. */
  predicate MessageChars17(s: seq<char>) {
    && |s| == 146 && s[117] == '\n' && s[118] == ' ' && s[119] == ' ' && s[120] == ' ' && s[121] == ' '
    && s[122] == ' ' && s[123] == ' ' && s[124] == ' ' && s[125] == ' ' && s[126] == 'i'
    && s[127] == 'n' && s[128] == 'n' && s[129] == 'e' && s[130] == 'r'
  }

  /** Characters 131 to 134 of the text of `solo_message_test`. */
  predicate MessageChars18(s: seq<char>) {
    && |s| == 146 && s[131] == ' ' && s[132] == 'i' && s[133] == 'd' && s[134] == 'x'
  }

  /** Characters 135 to 136 of the text of `solo_message_test`. */
  predicate MessageChars19(s: seq<char>) {
    && |s| == 146 && s[135] == ' ' && s[136] == '='
  }

  /** Characters 137 to 138 of the text of `solo_message_test`. */
  predicate MessageChars20(s: seq<char>) {
    && |s| == 146 && s[137] == ' ' && s[138] == '2'
  }

  /** Characters 139 to 144 of the text of `solo_message_test`. */
  predicate MessageChars21(s: seq<char>) {
    && |s| == 146 && s[139] == ';' && s[140] == '\n' && s[141] == ' ' && s[142] == ' ' && s[143] == ' '
    && s[144] == ' '
  }

  /** Characters 145 to 145 of the text of `solo_message_test`. */
  predicate MessageChars22(s: seq<char>) {
    && |s| == 146 && s[145] == '}'
  }

  /** The characters of the text of `solo_message_test`, a few tokens at a time. */
  predicate MessageText(s: seq<char>) {
    && MessageChars0(s) && MessageChars1(s) && MessageChars2(s) && MessageChars3(s) && MessageChars4(s)
    && MessageChars5(s) && MessageChars6(s) && MessageChars7(s) && MessageChars8(s) && MessageChars9(s)
    && MessageChars10(s) && MessageChars11(s) && MessageChars12(s) && MessageChars13(s)
    && MessageChars14(s) && MessageChars15(s) && MessageChars16(s) && MessageChars17(s)
    && MessageChars18(s) && MessageChars19(s) && MessageChars20(s) && MessageChars21(s)
    && MessageChars22(s)
  }

  /** The tokens of the text of `solo_message_test` and where each ends, a few at a time. */
  function MessagePlan0(): Plan {
    Then(Ident("message"), 7, Then(Whitespace, 8, MessagePlan1()))
  }

  function MessagePlan1(): Plan {
    Then(Ident("HiReq"), 13, Then(Whitespace, 14, MessagePlan2()))
  }

  function MessagePlan2(): Plan {
    Then(BraceOpen, 15, Then(Whitespace, 24, MessagePlan3()))
  }

  function MessagePlan3(): Plan {
    Then(Ident("optional"), 32, Then(Whitespace, 33, MessagePlan4()))
  }

  function MessagePlan4(): Plan {
    Then(Ident("string"), 39, Then(Whitespace, 40, MessagePlan5()))
  }

  function MessagePlan5(): Plan {
    Then(Ident("msg"), 43, Then(Whitespace, 44, MessagePlan6()))
  }

  function MessagePlan6(): Plan {
    Then(Equals, 45, Then(Whitespace, 46, MessagePlan7()))
  }

  function MessagePlan7(): Plan {
    Then(Number("1"), 47, Then(Semicolon, 48, MessagePlan8()))
  }

  function MessagePlan8(): Plan {
    Then(Whitespace, 57, MessagePlan9())
  }

  function MessagePlan9(): Plan {
    Then(Ident("message"), 64, Then(Whitespace, 65, MessagePlan10()))
  }

  function MessagePlan10(): Plan {
    Then(Ident("inner"), 70, Then(Whitespace, 71, MessagePlan11()))
  }

  function MessagePlan11(): Plan {
    Then(BraceOpen, 72, Then(Whitespace, 85, MessagePlan12()))
  }

  function MessagePlan12(): Plan {
    Then(Ident("int32"), 90, Then(Whitespace, 91, MessagePlan13()))
  }

  function MessagePlan13(): Plan {
    Then(Ident("inner_field"), 102, Then(Whitespace, 103, MessagePlan14()))
  }

  function MessagePlan14(): Plan {
    Then(Equals, 104, Then(Whitespace, 105, MessagePlan15()))
  }

  function MessagePlan15(): Plan {
    Then(Number("1"), 106, Then(Semicolon, 107, MessagePlan16()))
  }

  function MessagePlan16(): Plan {
    Then(Whitespace, 116, Then(BraceClose, 117, MessagePlan17()))
  }

  function MessagePlan17(): Plan {
    Then(Whitespace, 126, Then(Ident("inner"), 131, MessagePlan18()))
  }

  function MessagePlan18(): Plan {
    Then(Whitespace, 132, Then(Ident("idx"), 135, MessagePlan19()))
  }

  function MessagePlan19(): Plan {
    Then(Whitespace, 136, Then(Equals, 137, MessagePlan20()))
  }

  function MessagePlan20(): Plan {
    Then(Whitespace, 138, Then(Number("2"), 139, MessagePlan21()))
  }

  function MessagePlan21(): Plan {
    Then(Semicolon, 140, Then(Whitespace, 145, MessagePlan22()))
  }

  function MessagePlan22(): Plan {
    Then(BraceClose, 146, Done)
  }

  /** Characters 0 to 7 of the text of `solo_message_test`, from the literal text. */
  lemma MessageTextIs0(s: seq<char>)
    requires s == MessageSource
    ensures MessageChars0(s)
  {
  }

  /** Characters 8 to 13 of the text of `solo_message_test`, from the literal text. */
  lemma MessageTextIs1(s: seq<char>)
    requires s == MessageSource
    ensures MessageChars1(s)
  {
  }

  /** Characters 14 to 23 of the text of `solo_message_test`, from the literal text. */
  lemma MessageTextIs2(s: seq<char>)
    requires s == MessageSource
    ensures MessageChars2(s)
  {
  }

  /** Characters 24 to 32 of the text of `solo_message_test`, from the literal text. */
  lemma MessageTextIs3(s: seq<char>)
    requires s == MessageSource
    ensures MessageChars3(s)
  {
  }

  /** Characters 33 to 39 of the text of `solo_message_test`, from the literal text. */
  lemma MessageTextIs4(s: seq<char>)
    requires s == MessageSource
    ensures MessageChars4(s)
  {
  }

  /** Characters 40 to 43 of the text of `solo_message_test`, from the literal text. */
  lemma MessageTextIs5(s: seq<char>)
    requires s == MessageSource
    ensures MessageChars5(s)
  {
  }

  /** Characters 44 to 45 of the text of `solo_message_test`, from the literal text. */
  lemma MessageTextIs6(s: seq<char>)
    requires s == MessageSource
    ensures MessageChars6(s)
  {
  }

  /** Characters 46 to 47 of the text of `solo_message_test`, from the literal text. */
  lemma MessageTextIs7(s: seq<char>)
    requires s == MessageSource
    ensures MessageChars7(s)
  {
  }

  /** Characters 48 to 56 of the text of `solo_message_test`, from the literal text. */
  lemma MessageTextIs8(s: seq<char>)
    requires s == MessageSource
    ensures MessageChars8(s)
  {
  }

  /** Characters 57 to 64 of the text of `solo_message_test`, from the literal text. */
  lemma MessageTextIs9(s: seq<char>)
    requires s == MessageSource
    ensures MessageChars9(s)
  {
  }

  /** Characters 65 to 70 of the text of `solo_message_test`, from the literal text. */
  lemma MessageTextIs10(s: seq<char>)
    requires s == MessageSource
    ensures MessageChars10(s)
  {
  }

  /** Characters 71 to 84 of the text of `solo_message_test`, from the literal text. */
  lemma MessageTextIs11(s: seq<char>)
    requires s == MessageSource
    ensures MessageChars11(s)
  {
  }

  /** Characters 85 to 90 of the text of `solo_message_test`, from the literal text. */
  lemma MessageTextIs12(s: seq<char>)
    requires s == MessageSource
    ensures MessageChars12(s)
  {
  }

  /** Characters 91 to 102 of the text of `solo_message_test`, from the literal text. */
  lemma MessageTextIs13(s: seq<char>)
    requires s == MessageSource
    ensures MessageChars13(s)
  {
  }

  /** Characters 103 to 104 of the text of `solo_message_test`, from the literal text. */
  lemma MessageTextIs14(s: seq<char>)
    requires s == MessageSource
    ensures MessageChars14(s)
  {
  }

  /** Characters 105 to 106 of the text of `solo_message_test`, from the literal text. */
  lemma MessageTextIs15(s: seq<char>)
    requires s == MessageSource
    ensures MessageChars15(s)
  {
  }

  /** Characters 107 to 116 of the text of `solo_message_test`, from the literal text. */
  lemma MessageTextIs16(s: seq<char>)
    requires s == MessageSource
    ensures MessageChars16(s)
  {
  }

  /** Characters 117 to 130 of the text of `solo_message_test`, from the literal text. */
  lemma MessageTextIs17(s: seq<char>)
    requires s == MessageSource
    ensures MessageChars17(s)
  {
  }

  /** Characters 131 to 134 of the text of `solo_message_test`, from the literal text. */
  lemma MessageTextIs18(s: seq<char>)
    requires s == MessageSource
    ensures MessageChars18(s)
  {
  }

  /** Characters 135 to 136 of the text of `solo_message_test`, from the literal text. */
  lemma MessageTextIs19(s: seq<char>)
    requires s == MessageSource
    ensures MessageChars19(s)
  {
  }

  /** Characters 137 to 138 of the text of `solo_message_test`, from the literal text. */
  lemma MessageTextIs20(s: seq<char>)
    requires s == MessageSource
    ensures MessageChars20(s)
  {
  }

  /** Characters 139 to 144 of the text of `solo_message_test`, from the literal text. */
  lemma MessageTextIs21(s: seq<char>)
    requires s == MessageSource
    ensures MessageChars21(s)
  {
  }

  /** Characters 145 to 145 of the text of `solo_message_test`, from the literal text. */
  lemma MessageTextIs22(s: seq<char>)
    requires s == MessageSource
    ensures MessageChars22(s)
  {
  }

  /** The literal text of the text of `solo_message_test`, character by character. */
  lemma MessageTextIs(s: seq<char>)
    requires s == MessageSource
    ensures MessageText(s)
  {
    MessageTextIs0(s);
    MessageTextIs1(s);
    MessageTextIs2(s);
    MessageTextIs3(s);
    MessageTextIs4(s);
    MessageTextIs5(s);
    MessageTextIs6(s);
    MessageTextIs7(s);
    MessageTextIs8(s);
    MessageTextIs9(s);
    MessageTextIs10(s);
    MessageTextIs11(s);
    MessageTextIs12(s);
    MessageTextIs13(s);
    MessageTextIs14(s);
    MessageTextIs15(s);
    MessageTextIs16(s);
    MessageTextIs17(s);
    MessageTextIs18(s);
    MessageTextIs19(s);
    MessageTextIs20(s);
    MessageTextIs21(s);
    MessageTextIs22(s);
  }

  /** From position 145 on, the text of `solo_message_test` scans as planned. */
  lemma MessageScans22(s: seq<char>)
    requires MessageChars22(s)
    ensures ScansAs(s, 145, Then(BraceClose, 146, Done))
  {
    ScanPunctuationAt(s, 145);
  }

  /** From position 139 on, the text of `solo_message_test` scans as planned. */
  lemma MessageScans21(s: seq<char>, tail: Plan)
    requires MessageChars21(s) && s[145] == '}'
    requires ScansAs(s, 145, tail)
    ensures ScansAs(s, 139, Then(Semicolon, 140, Then(Whitespace, 145, tail)))
  {
    assert s[140..145] == "\n    ";
    assert forall k :: 140 <= k < 145 ==> s[k] == s[140..145][k - 140];
    ScanWhitespaceAt(s, 140, 5);
    ScanPunctuationAt(s, 139);
  }

  /** From position 137 on, the text of `solo_message_test` scans as planned. */
  lemma MessageScans20(s: seq<char>, tail: Plan)
    requires MessageChars20(s) && s[139] == ';'
    requires ScansAs(s, 139, tail)
    ensures ScansAs(s, 137, Then(Whitespace, 138, Then(Number("2"), 139, tail)))
  {
    assert s[138..139] == [s[138]];
    ScanNumberAt(s, 138, 1);
    ScanWhitespaceAt(s, 137, 1);
  }

  /** From position 135 on, the text of `solo_message_test` scans as planned. */
  lemma MessageScans19(s: seq<char>, tail: Plan)
    requires MessageChars19(s) && s[137] == ' '
    requires ScansAs(s, 137, tail)
    ensures ScansAs(s, 135, Then(Whitespace, 136, Then(Equals, 137, tail)))
  {
    ScanPunctuationAt(s, 136);
    ScanWhitespaceAt(s, 135, 1);
  }

  /** From position 131 on, the text of `solo_message_test` scans as planned. */
  lemma MessageScans18(s: seq<char>, tail: Plan)
    requires MessageChars18(s) && s[135] == ' '
    requires ScansAs(s, 135, tail)
    ensures ScansAs(s, 131, Then(Whitespace, 132, Then(Ident("idx"), 135, tail)))
  {
    assert s[132..135] == "idx";
    assert forall k :: 132 <= k < 135 ==> s[k] == s[132..135][k - 132];
    ScanIdentAt(s, 132, 3);
    ScanWhitespaceAt(s, 131, 1);
  }

  /** From position 117 on, the text of `solo_message_test` scans as planned. */
  lemma MessageScans17(s: seq<char>, tail: Plan)
    requires MessageChars17(s) && s[131] == ' '
    requires ScansAs(s, 131, tail)
    ensures ScansAs(s, 117, Then(Whitespace, 126, Then(Ident("inner"), 131, tail)))
  {
    assert s[117..126] == "\n        ";
    assert forall k :: 117 <= k < 126 ==> s[k] == s[117..126][k - 117];
    assert s[126..131] == "inner";
    assert forall k :: 126 <= k < 131 ==> s[k] == s[126..131][k - 126];
    ScanIdentAt(s, 126, 5);
    ScanWhitespaceAt(s, 117, 9);
  }

  /** From position 107 on, the text of `solo_message_test` scans as planned. */
  lemma MessageScans16(s: seq<char>, tail: Plan)
    requires MessageChars16(s) && s[117] == '\n'
    requires ScansAs(s, 117, tail)
    ensures ScansAs(s, 107, Then(Whitespace, 116, Then(BraceClose, 117, tail)))
  {
    assert s[107..116] == "\n        ";
    assert forall k :: 107 <= k < 116 ==> s[k] == s[107..116][k - 107];
    ScanPunctuationAt(s, 116);
    ScanWhitespaceAt(s, 107, 9);
  }

  /** From position 105 on, the text of `solo_message_test` scans as planned. */
  lemma MessageScans15(s: seq<char>, tail: Plan)
    requires MessageChars15(s) && s[107] == '\n'
    requires ScansAs(s, 107, tail)
    ensures ScansAs(s, 105, Then(Number("1"), 106, Then(Semicolon, 107, tail)))
  {
    assert s[105..106] == [s[105]];
    ScanPunctuationAt(s, 106);
    ScanNumberAt(s, 105, 1);
  }

  /** From position 103 on, the text of `solo_message_test` scans as planned. */
  lemma MessageScans14(s: seq<char>, tail: Plan)
    requires MessageChars14(s) && s[105] == '1'
    requires ScansAs(s, 105, tail)
    ensures ScansAs(s, 103, Then(Equals, 104, Then(Whitespace, 105, tail)))
  {
    ScanWhitespaceAt(s, 104, 1);
    ScanPunctuationAt(s, 103);
  }

  /** From position 91 on, the text of `solo_message_test` scans as planned. */
  lemma MessageScans13(s: seq<char>, tail: Plan)
    requires MessageChars13(s) && s[103] == '='
    requires ScansAs(s, 103, tail)
    ensures ScansAs(s, 91, Then(Ident("inner_field"), 102, Then(Whitespace, 103, tail)))
  {
    assert s[91..102] == "inner_field";
    assert forall k :: 91 <= k < 102 ==> s[k] == s[91..102][k - 91];
    ScanWhitespaceAt(s, 102, 1);
    ScanIdentAt(s, 91, 11);
  }

  /** From position 85 on, the text of `solo_message_test` scans as planned. */
  lemma MessageScans12(s: seq<char>, tail: Plan)
    requires MessageChars12(s) && s[91] == 'i'
    requires ScansAs(s, 91, tail)
    ensures ScansAs(s, 85, Then(Ident("int32"), 90, Then(Whitespace, 91, tail)))
  {
    assert s[85..90] == "int32";
    assert forall k :: 85 <= k < 90 ==> s[k] == s[85..90][k - 85];
    ScanWhitespaceAt(s, 90, 1);
    ScanIdentAt(s, 85, 5);
  }

  /** From position 71 on, the text of `solo_message_test` scans as planned. */
  lemma MessageScans11(s: seq<char>, tail: Plan)
    requires MessageChars11(s) && s[85] == 'i'
    requires ScansAs(s, 85, tail)
    ensures ScansAs(s, 71, Then(BraceOpen, 72, Then(Whitespace, 85, tail)))
  {
    assert s[72..85] == "\n            ";
    assert forall k :: 72 <= k < 85 ==> s[k] == s[72..85][k - 72];
    ScanWhitespaceAt(s, 72, 13);
    ScanPunctuationAt(s, 71);
  }

  /** From position 65 on, the text of `solo_message_test` scans as planned. */
  lemma MessageScans10(s: seq<char>, tail: Plan)
    requires MessageChars10(s) && s[71] == '{'
    requires ScansAs(s, 71, tail)
    ensures ScansAs(s, 65, Then(Ident("inner"), 70, Then(Whitespace, 71, tail)))
  {
    assert s[65..70] == "inner";
    assert forall k :: 65 <= k < 70 ==> s[k] == s[65..70][k - 65];
    ScanWhitespaceAt(s, 70, 1);
    ScanIdentAt(s, 65, 5);
  }

  /** From position 57 on, the text of `solo_message_test` scans as planned. */
  lemma MessageScans9(s: seq<char>, tail: Plan)
    requires MessageChars9(s) && s[65] == 'i'
    requires ScansAs(s, 65, tail)
    ensures ScansAs(s, 57, Then(Ident("message"), 64, Then(Whitespace, 65, tail)))
  {
    assert s[57..64] == "message";
    assert forall k :: 57 <= k < 64 ==> s[k] == s[57..64][k - 57];
    ScanWhitespaceAt(s, 64, 1);
    ScanIdentAt(s, 57, 7);
  }

  /** From position 48 on, the text of `solo_message_test` scans as planned. */
  lemma MessageScans8(s: seq<char>, tail: Plan)
    requires MessageChars8(s) && s[57] == 'm'
    requires ScansAs(s, 57, tail)
    ensures ScansAs(s, 48, Then(Whitespace, 57, tail))
  {
    assert s[48..57] == "\n        ";
    assert forall k :: 48 <= k < 57 ==> s[k] == s[48..57][k - 48];
    ScanWhitespaceAt(s, 48, 9);
  }

  /** From position 46 on, the text of `solo_message_test` scans as planned. */
  lemma MessageScans7(s: seq<char>, tail: Plan)
    requires MessageChars7(s) && s[48] == '\n'
    requires ScansAs(s, 48, tail)
    ensures ScansAs(s, 46, Then(Number("1"), 47, Then(Semicolon, 48, tail)))
  {
    assert s[46..47] == [s[46]];
    ScanPunctuationAt(s, 47);
    ScanNumberAt(s, 46, 1);
  }

  /** From position 44 on, the text of `solo_message_test` scans as planned. */
  lemma MessageScans6(s: seq<char>, tail: Plan)
    requires MessageChars6(s) && s[46] == '1'
    requires ScansAs(s, 46, tail)
    ensures ScansAs(s, 44, Then(Equals, 45, Then(Whitespace, 46, tail)))
  {
    ScanWhitespaceAt(s, 45, 1);
    ScanPunctuationAt(s, 44);
  }

  /** From position 40 on, the text of `solo_message_test` scans as planned. */
  lemma MessageScans5(s: seq<char>, tail: Plan)
    requires MessageChars5(s) && s[44] == '='
    requires ScansAs(s, 44, tail)
    ensures ScansAs(s, 40, Then(Ident("msg"), 43, Then(Whitespace, 44, tail)))
  {
    assert s[40..43] == "msg";
    assert forall k :: 40 <= k < 43 ==> s[k] == s[40..43][k - 40];
    ScanWhitespaceAt(s, 43, 1);
    ScanIdentAt(s, 40, 3);
  }

  /** From position 33 on, the text of `solo_message_test` scans as planned. */
  lemma MessageScans4(s: seq<char>, tail: Plan)
    requires MessageChars4(s) && s[40] == 'm'
    requires ScansAs(s, 40, tail)
    ensures ScansAs(s, 33, Then(Ident("string"), 39, Then(Whitespace, 40, tail)))
  {
    assert s[33..39] == "string";
    assert forall k :: 33 <= k < 39 ==> s[k] == s[33..39][k - 33];
    ScanWhitespaceAt(s, 39, 1);
    ScanIdentAt(s, 33, 6);
  }

  /** From position 24 on, the text of `solo_message_test` scans as planned. */
  lemma MessageScans3(s: seq<char>, tail: Plan)
    requires MessageChars3(s) && s[33] == 's'
    requires ScansAs(s, 33, tail)
    ensures ScansAs(s, 24, Then(Ident("optional"), 32, Then(Whitespace, 33, tail)))
  {
    assert s[24..32] == "optional";
    assert forall k :: 24 <= k < 32 ==> s[k] == s[24..32][k - 24];
    ScanWhitespaceAt(s, 32, 1);
    ScanIdentAt(s, 24, 8);
  }

  /** From position 14 on, the text of `solo_message_test` scans as planned. */
  lemma MessageScans2(s: seq<char>, tail: Plan)
    requires MessageChars2(s) && s[24] == 'o'
    requires ScansAs(s, 24, tail)
    ensures ScansAs(s, 14, Then(BraceOpen, 15, Then(Whitespace, 24, tail)))
  {
    assert s[15..24] == "\n        ";
    assert forall k :: 15 <= k < 24 ==> s[k] == s[15..24][k - 15];
    ScanWhitespaceAt(s, 15, 9);
    ScanPunctuationAt(s, 14);
  }

  /** From position 8 on, the text of `solo_message_test` scans as planned. */
  lemma MessageScans1(s: seq<char>, tail: Plan)
    requires MessageChars1(s) && s[14] == '{'
    requires ScansAs(s, 14, tail)
    ensures ScansAs(s, 8, Then(Ident("HiReq"), 13, Then(Whitespace, 14, tail)))
  {
    assert s[8..13] == "HiReq";
    assert forall k :: 8 <= k < 13 ==> s[k] == s[8..13][k - 8];
    ScanWhitespaceAt(s, 13, 1);
    ScanIdentAt(s, 8, 5);
  }

  /** From position 0 on, the text of `solo_message_test` scans as planned. */
  lemma MessageScans0(s: seq<char>, tail: Plan)
    requires MessageChars0(s) && s[8] == 'H'
    requires ScansAs(s, 8, tail)
    ensures ScansAs(s, 0, Then(Ident("message"), 7, Then(Whitespace, 8, tail)))
  {
    assert s[0..7] == "message";
    assert forall k :: 0 <= k < 7 ==> s[k] == s[0..7][k];
    ScanWhitespaceAt(s, 7, 1);
    ScanIdentAt(s, 0, 7);
  }

  /** The whole of the text of `solo_message_test` scans as planned. */
  lemma MessageScans(s: seq<char>)
    requires MessageText(s)
    ensures ScansAs(s, 0, MessagePlan0())
  {
    MessageScans22(s);
    assert MessageChars22(s);
    MessageScans21(s, MessagePlan22());
    assert MessageChars21(s);
    MessageScans20(s, MessagePlan21());
    assert MessageChars20(s);
    MessageScans19(s, MessagePlan20());
    assert MessageChars19(s);
    MessageScans18(s, MessagePlan19());
    assert MessageChars18(s);
    MessageScans17(s, MessagePlan18());
    assert MessageChars17(s);
    MessageScans16(s, MessagePlan17());
    assert MessageChars16(s);
    MessageScans15(s, MessagePlan16());
    assert MessageChars15(s);
    MessageScans14(s, MessagePlan15());
    assert MessageChars14(s);
    MessageScans13(s, MessagePlan14());
    assert MessageChars13(s);
    MessageScans12(s, MessagePlan13());
    assert MessageChars12(s);
    MessageScans11(s, MessagePlan12());
    assert MessageChars11(s);
    MessageScans10(s, MessagePlan11());
    assert MessageChars10(s);
    MessageScans9(s, MessagePlan10());
    assert MessageChars9(s);
    MessageScans8(s, MessagePlan9());
    assert MessageChars8(s);
    MessageScans7(s, MessagePlan8());
    assert MessageChars7(s);
    MessageScans6(s, MessagePlan7());
    assert MessageChars6(s);
    MessageScans5(s, MessagePlan6());
    assert MessageChars5(s);
    MessageScans4(s, MessagePlan5());
    assert MessageChars4(s);
    MessageScans3(s, MessagePlan4());
    assert MessageChars3(s);
    MessageScans2(s, MessagePlan3());
    assert MessageChars2(s);
    MessageScans1(s, MessagePlan2());
    assert MessageChars1(s);
    MessageScans0(s, MessagePlan1());
  }

  /** Tokens 0 to 1 of the text of `solo_message_test`, where the tokens from 0 on are planned. */
  lemma MessagePlanTokens0(ts: seq<Token>)
    requires 0 <= |ts| && ts[0..] == PlanTokens(MessagePlan0())
    ensures ts[0] == Ident("message") && ts[1] == Whitespace && 2 <= |ts| && ts[2..] == PlanTokens(MessagePlan1())
  {
    assert PlanTokens(MessagePlan0()) == [Ident("message"), Whitespace] + PlanTokens(MessagePlan1());
    assert ts[0..][2..] == ts[2..];
    assert ts[0] == ts[0..][0];
    assert ts[1] == ts[0..][1];
  }

  /** Tokens 2 to 3 of the text of `solo_message_test`, where the tokens from 2 on are planned. */
  lemma MessagePlanTokens1(ts: seq<Token>)
    requires 2 <= |ts| && ts[2..] == PlanTokens(MessagePlan1())
    ensures ts[2] == Ident("HiReq") && ts[3] == Whitespace && 4 <= |ts| && ts[4..] == PlanTokens(MessagePlan2())
  {
    assert PlanTokens(MessagePlan1()) == [Ident("HiReq"), Whitespace] + PlanTokens(MessagePlan2());
    assert ts[2..][2..] == ts[4..];
    assert ts[2] == ts[2..][0];
    assert ts[3] == ts[2..][1];
  }

  /** Tokens 4 to 5 of the text of `solo_message_test`, where the tokens from 4 on are planned. */
  lemma MessagePlanTokens2(ts: seq<Token>)
    requires 4 <= |ts| && ts[4..] == PlanTokens(MessagePlan2())
    ensures ts[4] == BraceOpen && ts[5] == Whitespace && 6 <= |ts| && ts[6..] == PlanTokens(MessagePlan3())
  {
    assert PlanTokens(MessagePlan2()) == [BraceOpen, Whitespace] + PlanTokens(MessagePlan3());
    assert ts[4..][2..] == ts[6..];
    assert ts[4] == ts[4..][0];
    assert ts[5] == ts[4..][1];
  }

  /** Tokens 6 to 7 of the text of `solo_message_test`, where the tokens from 6 on are planned. */
  lemma MessagePlanTokens3(ts: seq<Token>)
    requires 6 <= |ts| && ts[6..] == PlanTokens(MessagePlan3())
    ensures ts[6] == Ident("optional") && ts[7] == Whitespace && 8 <= |ts| && ts[8..] == PlanTokens(MessagePlan4())
  {
    assert PlanTokens(MessagePlan3()) == [Ident("optional"), Whitespace] + PlanTokens(MessagePlan4());
    assert ts[6..][2..] == ts[8..];
    assert ts[6] == ts[6..][0];
    assert ts[7] == ts[6..][1];
  }

  /** Tokens 8 to 9 of the text of `solo_message_test`, where the tokens from 8 on are planned. */
  lemma MessagePlanTokens4(ts: seq<Token>)
    requires 8 <= |ts| && ts[8..] == PlanTokens(MessagePlan4())
    ensures ts[8] == Ident("string") && ts[9] == Whitespace && 10 <= |ts| && ts[10..] == PlanTokens(MessagePlan5())
  {
    assert PlanTokens(MessagePlan4()) == [Ident("string"), Whitespace] + PlanTokens(MessagePlan5());
    assert ts[8..][2..] == ts[10..];
    assert ts[8] == ts[8..][0];
    assert ts[9] == ts[8..][1];
  }

  /** Tokens 10 to 11 of the text of `solo_message_test`, where the tokens from 10 on are planned. */
  lemma MessagePlanTokens5(ts: seq<Token>)
    requires 10 <= |ts| && ts[10..] == PlanTokens(MessagePlan5())
    ensures ts[10] == Ident("msg") && ts[11] == Whitespace && 12 <= |ts| && ts[12..] == PlanTokens(MessagePlan6())
  {
    assert PlanTokens(MessagePlan5()) == [Ident("msg"), Whitespace] + PlanTokens(MessagePlan6());
    assert ts[10..][2..] == ts[12..];
    assert ts[10] == ts[10..][0];
    assert ts[11] == ts[10..][1];
  }

  /** Tokens 12 to 13 of the text of `solo_message_test`, where the tokens from 12 on are planned. */
  lemma MessagePlanTokens6(ts: seq<Token>)
    requires 12 <= |ts| && ts[12..] == PlanTokens(MessagePlan6())
    ensures ts[12] == Equals && ts[13] == Whitespace && 14 <= |ts| && ts[14..] == PlanTokens(MessagePlan7())
  {
    assert PlanTokens(MessagePlan6()) == [Equals, Whitespace] + PlanTokens(MessagePlan7());
    assert ts[12..][2..] == ts[14..];
    assert ts[12] == ts[12..][0];
    assert ts[13] == ts[12..][1];
  }

  /** Tokens 14 to 15 of the text of `solo_message_test`, where the tokens from 14 on are planned. */
  lemma MessagePlanTokens7(ts: seq<Token>)
    requires 14 <= |ts| && ts[14..] == PlanTokens(MessagePlan7())
    ensures ts[14] == Number("1") && ts[15] == Semicolon && 16 <= |ts| && ts[16..] == PlanTokens(MessagePlan8())
  {
    assert PlanTokens(MessagePlan7()) == [Number("1"), Semicolon] + PlanTokens(MessagePlan8());
    assert ts[14..][2..] == ts[16..];
    assert ts[14] == ts[14..][0];
    assert ts[15] == ts[14..][1];
  }

  /** Tokens 16 to 16 of the text of `solo_message_test`, where the tokens from 16 on are planned. */
  lemma MessagePlanTokens8(ts: seq<Token>)
    requires 16 <= |ts| && ts[16..] == PlanTokens(MessagePlan8())
    ensures ts[16] == Whitespace && 17 <= |ts| && ts[17..] == PlanTokens(MessagePlan9())
  {
    assert PlanTokens(MessagePlan8()) == [Whitespace] + PlanTokens(MessagePlan9());
    assert ts[16..][1..] == ts[17..];
    assert ts[16] == ts[16..][0];
  }

  /** Tokens 17 to 18 of the text of `solo_message_test`, where the tokens from 17 on are planned. */
  lemma MessagePlanTokens9(ts: seq<Token>)
    requires 17 <= |ts| && ts[17..] == PlanTokens(MessagePlan9())
    ensures ts[17] == Ident("message") && ts[18] == Whitespace && 19 <= |ts| && ts[19..] == PlanTokens(MessagePlan10())
  {
    assert PlanTokens(MessagePlan9()) == [Ident("message"), Whitespace] + PlanTokens(MessagePlan10());
    assert ts[17..][2..] == ts[19..];
    assert ts[17] == ts[17..][0];
    assert ts[18] == ts[17..][1];
  }

  /** Tokens 19 to 20 of the text of `solo_message_test`, where the tokens from 19 on are planned. */
  lemma MessagePlanTokens10(ts: seq<Token>)
    requires 19 <= |ts| && ts[19..] == PlanTokens(MessagePlan10())
    ensures ts[19] == Ident("inner") && ts[20] == Whitespace && 21 <= |ts| && ts[21..] == PlanTokens(MessagePlan11())
  {
    assert PlanTokens(MessagePlan10()) == [Ident("inner"), Whitespace] + PlanTokens(MessagePlan11());
    assert ts[19..][2..] == ts[21..];
    assert ts[19] == ts[19..][0];
    assert ts[20] == ts[19..][1];
  }

  /** Tokens 21 to 22 of the text of `solo_message_test`, where the tokens from 21 on are planned. */
  lemma MessagePlanTokens11(ts: seq<Token>)
    requires 21 <= |ts| && ts[21..] == PlanTokens(MessagePlan11())
    ensures ts[21] == BraceOpen && ts[22] == Whitespace && 23 <= |ts| && ts[23..] == PlanTokens(MessagePlan12())
  {
    assert PlanTokens(MessagePlan11()) == [BraceOpen, Whitespace] + PlanTokens(MessagePlan12());
    assert ts[21..][2..] == ts[23..];
    assert ts[21] == ts[21..][0];
    assert ts[22] == ts[21..][1];
  }

  /** Tokens 23 to 24 of the text of `solo_message_test`, where the tokens from 23 on are planned. */
  lemma MessagePlanTokens12(ts: seq<Token>)
    requires 23 <= |ts| && ts[23..] == PlanTokens(MessagePlan12())
    ensures ts[23] == Ident("int32") && ts[24] == Whitespace && 25 <= |ts| && ts[25..] == PlanTokens(MessagePlan13())
  {
    assert PlanTokens(MessagePlan12()) == [Ident("int32"), Whitespace] + PlanTokens(MessagePlan13());
    assert ts[23..][2..] == ts[25..];
    assert ts[23] == ts[23..][0];
    assert ts[24] == ts[23..][1];
  }

  /** Tokens 25 to 26 of the text of `solo_message_test`, where the tokens from 25 on are planned. */
  lemma MessagePlanTokens13(ts: seq<Token>)
    requires 25 <= |ts| && ts[25..] == PlanTokens(MessagePlan13())
    ensures ts[25] == Ident("inner_field") && ts[26] == Whitespace && 27 <= |ts| && ts[27..] == PlanTokens(MessagePlan14())
  {
    assert PlanTokens(MessagePlan13()) == [Ident("inner_field"), Whitespace] + PlanTokens(MessagePlan14());
    assert ts[25..][2..] == ts[27..];
    assert ts[25] == ts[25..][0];
    assert ts[26] == ts[25..][1];
  }

  /** Tokens 27 to 28 of the text of `solo_message_test`, where the tokens from 27 on are planned. */
  lemma MessagePlanTokens14(ts: seq<Token>)
    requires 27 <= |ts| && ts[27..] == PlanTokens(MessagePlan14())
    ensures ts[27] == Equals && ts[28] == Whitespace && 29 <= |ts| && ts[29..] == PlanTokens(MessagePlan15())
  {
    assert PlanTokens(MessagePlan14()) == [Equals, Whitespace] + PlanTokens(MessagePlan15());
    assert ts[27..][2..] == ts[29..];
    assert ts[27] == ts[27..][0];
    assert ts[28] == ts[27..][1];
  }

  /** Tokens 29 to 30 of the text of `solo_message_test`, where the tokens from 29 on are planned. */
  lemma MessagePlanTokens15(ts: seq<Token>)
    requires 29 <= |ts| && ts[29..] == PlanTokens(MessagePlan15())
    ensures ts[29] == Number("1") && ts[30] == Semicolon && 31 <= |ts| && ts[31..] == PlanTokens(MessagePlan16())
  {
    assert PlanTokens(MessagePlan15()) == [Number("1"), Semicolon] + PlanTokens(MessagePlan16());
    assert ts[29..][2..] == ts[31..];
    assert ts[29] == ts[29..][0];
    assert ts[30] == ts[29..][1];
  }

  /** Tokens 31 to 32 of the text of `solo_message_test`, where the tokens from 31 on are planned. */
  lemma MessagePlanTokens16(ts: seq<Token>)
    requires 31 <= |ts| && ts[31..] == PlanTokens(MessagePlan16())
    ensures ts[31] == Whitespace && ts[32] == BraceClose && 33 <= |ts| && ts[33..] == PlanTokens(MessagePlan17())
  {
    assert PlanTokens(MessagePlan16()) == [Whitespace, BraceClose] + PlanTokens(MessagePlan17());
    assert ts[31..][2..] == ts[33..];
    assert ts[31] == ts[31..][0];
    assert ts[32] == ts[31..][1];
  }

  /** Tokens 33 to 34 of the text of `solo_message_test`, where the tokens from 33 on are planned. */
  lemma MessagePlanTokens17(ts: seq<Token>)
    requires 33 <= |ts| && ts[33..] == PlanTokens(MessagePlan17())
    ensures ts[33] == Whitespace && ts[34] == Ident("inner") && 35 <= |ts| && ts[35..] == PlanTokens(MessagePlan18())
  {
    assert PlanTokens(MessagePlan17()) == [Whitespace, Ident("inner")] + PlanTokens(MessagePlan18());
    assert ts[33..][2..] == ts[35..];
    assert ts[33] == ts[33..][0];
    assert ts[34] == ts[33..][1];
  }

  /** Tokens 35 to 36 of the text of `solo_message_test`, where the tokens from 35 on are planned. */
  lemma MessagePlanTokens18(ts: seq<Token>)
    requires 35 <= |ts| && ts[35..] == PlanTokens(MessagePlan18())
    ensures ts[35] == Whitespace && ts[36] == Ident("idx") && 37 <= |ts| && ts[37..] == PlanTokens(MessagePlan19())
  {
    assert PlanTokens(MessagePlan18()) == [Whitespace, Ident("idx")] + PlanTokens(MessagePlan19());
    assert ts[35..][2..] == ts[37..];
    assert ts[35] == ts[35..][0];
    assert ts[36] == ts[35..][1];
  }

  /** Tokens 37 to 38 of the text of `solo_message_test`, where the tokens from 37 on are planned. */
  lemma MessagePlanTokens19(ts: seq<Token>)
    requires 37 <= |ts| && ts[37..] == PlanTokens(MessagePlan19())
    ensures ts[37] == Whitespace && ts[38] == Equals && 39 <= |ts| && ts[39..] == PlanTokens(MessagePlan20())
  {
    assert PlanTokens(MessagePlan19()) == [Whitespace, Equals] + PlanTokens(MessagePlan20());
    assert ts[37..][2..] == ts[39..];
    assert ts[37] == ts[37..][0];
    assert ts[38] == ts[37..][1];
  }

  /** Tokens 39 to 40 of the text of `solo_message_test`, where the tokens from 39 on are planned. */
  lemma MessagePlanTokens20(ts: seq<Token>)
    requires 39 <= |ts| && ts[39..] == PlanTokens(MessagePlan20())
    ensures ts[39] == Whitespace && ts[40] == Number("2") && 41 <= |ts| && ts[41..] == PlanTokens(MessagePlan21())
  {
    assert PlanTokens(MessagePlan20()) == [Whitespace, Number("2")] + PlanTokens(MessagePlan21());
    assert ts[39..][2..] == ts[41..];
    assert ts[39] == ts[39..][0];
    assert ts[40] == ts[39..][1];
  }

  /** Tokens 41 to 42 of the text of `solo_message_test`, where the tokens from 41 on are planned. */
  lemma MessagePlanTokens21(ts: seq<Token>)
    requires 41 <= |ts| && ts[41..] == PlanTokens(MessagePlan21())
    ensures ts[41] == Semicolon && ts[42] == Whitespace && 43 <= |ts| && ts[43..] == PlanTokens(MessagePlan22())
  {
    assert PlanTokens(MessagePlan21()) == [Semicolon, Whitespace] + PlanTokens(MessagePlan22());
    assert ts[41..][2..] == ts[43..];
    assert ts[41] == ts[41..][0];
    assert ts[42] == ts[41..][1];
  }

  /** Tokens 43 to 43 of the text of `solo_message_test`, where the tokens from 43 on are planned. */
  lemma MessagePlanTokens22(ts: seq<Token>)
    requires 43 <= |ts| && ts[43..] == PlanTokens(MessagePlan22())
    ensures ts[43] == BraceClose && |ts| == 44
  {
    assert PlanTokens(MessagePlan22()) == [BraceClose];
    assert ts[43] == ts[43..][0];
  }

  /** The planned tokens, one by one. */
  lemma MessagePlanStream(ts: seq<Token>)
    requires ts == PlanTokens(MessagePlan0())
    ensures MessageStream(ts)
  {
    assert ts[0..] == ts;
    MessagePlanTokens0(ts);
    MessagePlanTokens1(ts);
    MessagePlanTokens2(ts);
    MessagePlanTokens3(ts);
    MessagePlanTokens4(ts);
    MessagePlanTokens5(ts);
    MessagePlanTokens6(ts);
    MessagePlanTokens7(ts);
    MessagePlanTokens8(ts);
    MessagePlanTokens9(ts);
    MessagePlanTokens10(ts);
    MessagePlanTokens11(ts);
    MessagePlanTokens12(ts);
    MessagePlanTokens13(ts);
    MessagePlanTokens14(ts);
    MessagePlanTokens15(ts);
    MessagePlanTokens16(ts);
    MessagePlanTokens17(ts);
    MessagePlanTokens18(ts);
    MessagePlanTokens19(ts);
    MessagePlanTokens20(ts);
    MessagePlanTokens21(ts);
    MessagePlanTokens22(ts);
  }

  /** The tokens `next_token` reads from the text of `solo_message_test`. */
  lemma MessageLexes(s: seq<char>)
    requires s == MessageSource
    ensures MessageStream(Lex(s))
  {
    MessageTextIs(s);
    MessageScans(s);
    LexScans(s, 0, MessagePlan0());
    assert s[0..] == s;
    MessagePlanStream(Lex(s));
  }
}
