/** The tokenizer tests of src/parser.rs, stated on the token stream `next_token` yields. */
module LexerExamples {
  import opened Ast
  import opened Lexer

  /** A token that consumes the whole input is the only one. */
  lemma LexWhole(s: seq<char>, t: Token)
    requires s != [] && Scan(s) == Lexeme(t, |s|)
    ensures Lex(s) == [t]
  {
    assert s[|s|..] == [];
  }

  /** `solo_ident_test`. */
  lemma SoloIdent()
    ensures Lex("hello") == [Ident("hello")]
  {
    var s := "hello";
    SpanIs(s[1..], IsIdentChar, 4);
    assert s[..5] == s;
    LexWhole(s, Ident("hello"));
  }

  /** A run of punctuation characters is that many one-character tokens. */
  lemma {:induction false} LexPunctuation(s: seq<char>)
    requires forall i :: 0 <= i < |s| ==> s[i] in ";{}()\"="
    ensures Lex(s) == seq(|s|, i requires 0 <= i < |s| => Punctuation(s[i]))
    decreases |s|
  {
    if s != [] {
      ScanSingle(s);
      LexPunctuation(s[1..]);
    }
  }

  /** `single_tokens_test`: each of the seven characters is its own token. */
  lemma SingleTokens(s: seq<char>)
    requires s == ";{}()\"="
    ensures Lex(s) == [Semicolon, BraceOpen, BraceClose, ParensOpen, ParensClose, Quote, Equals]
  {
    LexPunctuation(s);
    SingleTokenValues(s);
  }

  lemma SingleTokenValues(s: seq<char>)
    requires s == ";{}()\"="
    ensures seq(|s|, i requires 0 <= i < |s| => Punctuation(s[i]))
      == [Semicolon, BraceOpen, BraceClose, ParensOpen, ParensClose, Quote, Equals]
  {
  }

  /** `solo_number_test`. */
  lemma SoloNumber()
    ensures Lex("12348") == [Number("12348")]
  {
    var s := "12348";
    SpanIs(s[1..], IsNumeric, 4);
    assert s[..5] == s;
    LexWhole(s, Number("12348"));
  }

  /** `solo_comment_test`: a line comment running to the end of the input. */
  lemma SoloComment(s: seq<char>)
    requires s == "// hello comment"
    ensures Lex(s) == [Comment("// hello comment")]
  {
    SpanIs(s[2..], NotNewline, |s| - 2);
    ScanLineComment(s);
    assert s[..|s|] == s;
    LexWhole(s, Comment(s));
  }

  /** A block comment with no star inside is one token, both delimiters included. */
  lemma BlockCommentWhole(body: seq<char>)
    requires '*' !in body
    ensures Lex("/*" + body + "*/") == [Comment("/*" + body + "*/")]
  {
    var s := "/*" + body + "*/";
    forall i | 2 <= i < |s| - 2
      ensures !(s[i] == '*' && s[i + 1] == '/')
    {
      assert s[i] == body[i - 2];
    }
    BlockEndIs(s, 2, |s| - 2);
    assert s[..|s|] == s;
    LexWhole(s, Comment(s));
  }

  /** `solo_multiline_comment_test`: the block comment keeps both delimiters and the newline inside. */
  lemma SoloMultilineComment()
    ensures Lex("/*" + " hello comment\n    " + "*/") == [Comment("/*" + " hello comment\n    " + "*/")]
  {
    BlockCommentWhole(" hello comment\n    ");
  }

  /** `solo_whitespace_test`: spaces and newlines together are one token. */
  lemma SoloWhitespace()
    ensures Lex("     \n    \n    ") == [Whitespace]
  {
    var s := "     \n    \n    ";
    assert forall k :: 0 <= k < |s| - 1 ==> s[1..][k] == ' ' || s[1..][k] == '\n';
    SpanIs(s[1..], IsWhitespace, |s| - 1);
    ScanWhitespace(s);
    LexWhole(s, Whitespace);
  }

  /** The character that ends an identifier is the next one read: it starts the next token. */
  lemma IdentPushback()
    ensures Lex("ab;") == [Ident("ab"), Semicolon]
  {
    var s := "ab;";
    SpanIs(s[1..], IsIdentChar, 1);
    assert s[..2] == "ab" && s[2..] == ";";
    LexWhole(";", Semicolon);
  }

  /** The tokens expected of a text, each with the position where it ends. */
  datatype Plan = Done | Then(token: Token, end: nat, next: Plan)

  function PlanTokens(p: Plan): seq<Token> {
    match p
    case Done => []
    case Then(t, _, next) => [t] + PlanTokens(next)
  }

  /** `next_token` read from position `i` on yields the tokens of `p`, each ending where `p` says, and then the text runs out. */
  predicate ScansAs(s: seq<char>, i: nat, p: Plan)
    decreases p
  {
    match p
    case Done => i == |s|
    case Then(t, e, next) => i < e <= |s| && Scan(s[i..]) == Lexeme(t, e - i) && ScansAs(s, e, next)
  }

  /** A text whose first token is known lexes as that token and the tokens of the rest. */
  lemma LexHead(t: seq<char>, tok: Token, n: nat)
    requires t != [] && Scan(t) == Lexeme(tok, n)
    ensures Lex(t) == [tok] + Lex(t[n..])
  {
  }

  /** Token after token, the scans are the whole token stream. */
  lemma {:induction false} LexScans(s: seq<char>, i: nat, p: Plan)
    requires ScansAs(s, i, p)
    ensures i <= |s| && Lex(s[i..]) == PlanTokens(p)
    decreases p
  {
    if p.Then? {
      var t := s[i..];
      LexScans(s, p.end, p.next);
      assert t[p.end - i..] == s[p.end..];
      LexHead(t, p.token, p.end - i);
    }
  }

  /** An identifier in the middle of a text stops before the next non-identifier character. */
  lemma ScanIdentAt(s: seq<char>, i: nat, n: nat)
    requires 0 < n && i + n <= |s| && IsIdentStart(s[i])
    requires forall k :: i < k < i + n ==> IsIdentChar(s[k])
    requires i + n == |s| || !IsIdentChar(s[i + n])
    ensures Scan(s[i..]) == Lexeme(Ident(s[i..i + n]), n)
  {
    var t := s[i..];
    assert forall k :: 0 <= k < n - 1 ==> t[1..][k] == s[i + 1 + k];
    SpanIs(t[1..], IsIdentChar, n - 1);
    assert t[..n] == s[i..i + n];
  }

  /** A run of whitespace in the middle of a text is one token. */
  lemma ScanWhitespaceAt(s: seq<char>, i: nat, n: nat)
    requires 0 < n && i + n <= |s|
    requires forall k :: i <= k < i + n ==> IsWhitespace(s[k])
    requires i + n == |s| || !IsWhitespace(s[i + n])
    ensures Scan(s[i..]) == Lexeme(Whitespace, n)
  {
    var t := s[i..];
    assert forall k :: 0 <= k < n - 1 ==> t[1..][k] == s[i + 1 + k];
    SpanIs(t[1..], IsWhitespace, n - 1);
  }

  /** A punctuation character in the middle of a text is one token. */
  lemma ScanPunctuationAt(s: seq<char>, i: nat)
    requires i < |s| && s[i] in ";{}()\"="
    ensures Scan(s[i..]) == Lexeme(Punctuation(s[i]), 1)
  {
    ScanSingle(s[i..]);
  }

  /** A number in the middle of a text stops before the next non-numeric character. */
  lemma ScanNumberAt(s: seq<char>, i: nat, n: nat)
    requires 0 < n && i + n <= |s| && IsAsciiDigit(s[i])
    requires forall k :: i < k < i + n ==> IsNumeric(s[k])
    requires i + n == |s| || !IsNumeric(s[i + n])
    ensures Scan(s[i..]) == Lexeme(Number(s[i..i + n]), n)
  {
    var t := s[i..];
    assert forall k :: 0 <= k < n - 1 ==> t[1..][k] == s[i + 1 + k];
    SpanIs(t[1..], IsNumeric, n - 1);
    assert t[..n] == s[i..i + n];
  }

  /** A line comment in the middle of a text ends at the next newline, which it consumes. */
  lemma ScanLineCommentAt(s: seq<char>, i: nat, n: nat)
    requires 2 <= n && i + n < |s| && s[i] == '/' && s[i + 1] == '/'
    requires forall k :: i + 2 <= k < i + n ==> s[k] != '\n'
    requires s[i + n] == '\n'
    ensures Scan(s[i..]) == Lexeme(Comment(s[i..i + n]), n + 1)
  {
    var t := s[i..];
    assert forall k :: 0 <= k < n - 2 ==> t[2..][k] == s[i + 2 + k];
    assert t[2..][n - 2] == s[i + n];
    SpanIs(t[2..], NotNewline, n - 2);
    assert t[..n] == s[i..i + n];
  }
}
