/**
 * The tokenizer of src/parser.rs (`Parser::next_token`) as a pure scan over
 * the characters still to be read, plus the character classes it uses and
 * the line and column counters of `next_char`.
 */
module Lexer {
  import opened Wrappers
  import opened Ast

  predicate IsAsciiAlpha(c: char) { 'A' <= c <= 'Z' || 'a' <= c <= 'z' }

  predicate IsAsciiDigit(c: char) { '0' <= c <= '9' }

  /** May start an identifier: `is_ascii_alphabetic() || c == '_'`. */
  predicate IsIdentStart(c: char) { IsAsciiAlpha(c) || c == '_' }

  /** May continue an identifier: `c == '_' || is_ascii_alphanumeric()`. */
  predicate IsIdentChar(c: char) { c == '_' || IsAsciiAlpha(c) || IsAsciiDigit(c) }

  /**
   * `char::is_numeric` (categories Nd, Nl, No) on U+0000..U+00FF: the ASCII
   * digits, the superscripts two, three and one, and the three vulgar fractions.
   */
  predicate IsNumeric(c: char) {
    var n := c as int;
    IsAsciiDigit(c) || n == 0xB2 || n == 0xB3 || n == 0xB9 || n == 0xBC || n == 0xBD || n == 0xBE
  }

  /** `char::is_whitespace`: the Unicode White_Space property. */
  predicate IsWhitespace(c: char) {
    var n := c as int;
    || (0x09 <= n <= 0x0D) || n == 0x20 || n == 0x85 || n == 0xA0 || n == 0x1680
    || (0x2000 <= n <= 0x200A) || n == 0x2028 || n == 0x2029 || n == 0x202F || n == 0x205F || n == 0x3000
  }

  predicate NotNewline(c: char) { c != '\n' }

  /** The one-character tokens; any other character here is an error. */
  function Punctuation(c: char): (r: Token)
    ensures !r.Error? <==> c in ";{}()\"="
    ensures r.Error? ==> r.msg == "Unexpected char"
  {
    match c
    case ';' => Semicolon
    case '{' => BraceOpen
    case '}' => BraceClose
    case '(' => ParensOpen
    case ')' => ParensClose
    case '"' => Quote
    case '=' => Equals
    case _ => Error("Unexpected char")
  }

  /** The length of the longest prefix of `s` whose characters all satisfy `p`. */
  function Span(s: seq<char>, p: char -> bool): (n: nat)
    ensures n <= |s|
    decreases |s|
  {
    if s == [] || !p(s[0]) then 0 else 1 + Span(s[1..], p)
  }

  /** Every character of the span satisfies `p`, and the one after it does not. */
  lemma {:induction false} SpanStops(s: seq<char>, p: char -> bool)
    ensures forall k :: 0 <= k < Span(s, p) ==> p(s[k])
    ensures Span(s, p) == |s| || !p(s[Span(s, p)])
    decreases |s|
  {
    if s != [] && p(s[0]) {
      SpanStops(s[1..], p);
      forall k | 0 < k < Span(s, p) ensures p(s[k]) {
        assert s[k] == s[1..][k - 1];
      }
    }
  }

  /** A span is determined by the run it covers and the character that stops it. */
  lemma {:induction false} SpanIs(s: seq<char>, p: char -> bool, n: nat)
    requires n <= |s|
    requires forall k :: 0 <= k < n ==> p(s[k])
    requires n == |s| || !p(s[n])
    ensures Span(s, p) == n
    decreases n
  {
    if n > 0 {
      SpanIs(s[1..], p, n - 1);
    }
  }

  // The first `j >= from` where the closing star-slash pair starts.
  function BlockEnd(s: seq<char>, from: nat): (r: Option<nat>)
    ensures r.Some? ==> from <= r.value && r.value + 1 < |s| && s[r.value] == '*' && s[r.value + 1] == '/'
    decreases |s| - from
  {
    if from + 1 >= |s| then None
    else if s[from] == '*' && s[from + 1] == '/' then Some(from)
    else BlockEnd(s, from + 1)
  }

  /** No star-slash pair starts before the one `BlockEnd` finds, and none at all when it finds none. */
  lemma {:induction false} BlockEndFirst(s: seq<char>, from: nat)
    ensures forall j :: from <= j && j + 1 < |s| && (BlockEnd(s, from).None? || j < BlockEnd(s, from).value) ==>
      !(s[j] == '*' && s[j + 1] == '/')
    decreases |s| - from
  {
    if from + 1 < |s| && !(s[from] == '*' && s[from + 1] == '/') {
      BlockEndFirst(s, from + 1);
    }
  }

  // The first position where the closing star-slash pair starts is unique.
  lemma {:induction false} BlockEndIs(s: seq<char>, from: nat, j: nat)
    requires from <= j && j + 1 < |s| && s[j] == '*' && s[j + 1] == '/'
    requires forall i :: from <= i < j ==> !(s[i] == '*' && s[i + 1] == '/')
    ensures BlockEnd(s, from) == Some(j)
    decreases j - from
  {
    if from < j {
      BlockEndIs(s, from + 1, j);
    }
  }

  /** A token and the number of characters reading it consumes. */
  datatype Lexeme = Lexeme(token: Token, len: nat)

  /** `s` opens a block comment, whose characters after a `*` are peeked rather than counted. */
  predicate IsBlockOpen(s: seq<char>) { |s| >= 2 && s[0] == '/' && s[1] == '*' }

  /**
   * `next_token` on the characters `s` still to be read: the token and how
   * many characters it consumes, including a pushed-back terminator only
   * when it is consumed (the newline of a line comment).
   */
  function Scan(s: seq<char>): (r: Lexeme)
    requires s != []
    ensures 1 <= r.len <= |s|
  {
    var c := s[0];
    if IsIdentStart(c) then
      var n := 1 + Span(s[1..], IsIdentChar);
      Lexeme(Ident(s[..n]), n)
    else if c == '/' && |s| >= 2 && s[1] == '/' then
      var n := 2 + Span(s[2..], NotNewline);
      Lexeme(Comment(s[..n]), if n < |s| then n + 1 else n)
    else if c == '/' && |s| >= 2 && s[1] == '*' then
      match BlockEnd(s, 2)
      case Some(j) => Lexeme(Comment(s[..j + 2]), j + 2)
      case None => Lexeme(Error("Expected /"), |s|)
    else if c == '/' && |s| >= 2 then
      Lexeme(Error("Expected /"), 2)
    else if IsNumeric(c) then
      var n := 1 + Span(s[1..], IsNumeric);
      Lexeme(Number(s[..n]), n)
    else if IsWhitespace(c) then
      Lexeme(Whitespace, 1 + Span(s[1..], IsWhitespace))
    else
      Lexeme(Punctuation(c), 1)
  }

  /** An identifier is the longest run of identifier characters after its first character. */
  lemma ScanIdent(s: seq<char>)
    requires s != [] && IsIdentStart(s[0])
    ensures var n := 1 + Span(s[1..], IsIdentChar);
      Scan(s) == Lexeme(Ident(s[..n]), n) && (n == |s| || !IsIdentChar(s[n]))
  {
    SpanStops(s[1..], IsIdentChar);
  }

  /** A number is the longest run of numeric characters; it never starts an identifier. */
  lemma ScanNumber(s: seq<char>)
    requires s != [] && IsNumeric(s[0])
    ensures var n := 1 + Span(s[1..], IsNumeric);
      Scan(s) == Lexeme(Number(s[..n]), n) && (n == |s| || !IsNumeric(s[n]))
  {
    SpanStops(s[1..], IsNumeric);
  }

  /** A run of whitespace, however long, is one token. */
  lemma ScanWhitespace(s: seq<char>)
    requires s != [] && IsWhitespace(s[0])
    ensures var n := 1 + Span(s[1..], IsWhitespace);
      Scan(s) == Lexeme(Whitespace, n) && (n == |s| || !IsWhitespace(s[n]))
  {
    SpanStops(s[1..], IsWhitespace);
  }

  /**
   * A line comment runs up to the next newline or the end of the input; its
   * text leaves out the newline, which is consumed with it.
   */
  lemma ScanLineComment(s: seq<char>)
    requires |s| >= 2 && s[0] == '/' && s[1] == '/'
    ensures var n := 2 + Span(s[2..], NotNewline);
      && Scan(s) == Lexeme(Comment(s[..n]), if n < |s| then n + 1 else n)
      && '\n' !in s[..n] && (n == |s| || s[n] == '\n')
  {
    var n := 2 + Span(s[2..], NotNewline);
    SpanStops(s[2..], NotNewline);
    assert forall k :: 0 <= k < n ==> s[..n][k] != '\n' by {
      forall k | 0 <= k < n ensures s[..n][k] != '\n' {
        if k >= 2 { assert s[2..][k - 2] == s[k]; }
      }
    }
  }

  /**
   * A block comment runs up to the first star-slash after its opening and
   * keeps both delimiters; without one it is an error that swallows the rest.
   */
  lemma ScanBlockComment(s: seq<char>)
    requires IsBlockOpen(s)
    ensures BlockEnd(s, 2).Some? ==>
      Scan(s) == Lexeme(Comment(s[..BlockEnd(s, 2).value + 2]), BlockEnd(s, 2).value + 2)
    ensures BlockEnd(s, 2).None? ==> Scan(s) == Lexeme(Error("Expected /"), |s|)
  {
  }

  /** A slash followed by anything but a slash or a star is an error consuming both. */
  lemma ScanBadSlash(s: seq<char>)
    requires |s| >= 2 && s[0] == '/' && s[1] != '/' && s[1] != '*'
    ensures Scan(s) == Lexeme(Error("Expected /"), 2)
  {
  }

  /** Any other character is one token: punctuation, or an error (a slash at the very end included). */
  lemma ScanSingle(s: seq<char>)
    requires s != [] && !IsIdentStart(s[0]) && !IsNumeric(s[0]) && !IsWhitespace(s[0])
    requires s[0] == '/' ==> |s| == 1
    ensures Scan(s) == Lexeme(Punctuation(s[0]), 1)
    ensures s[0] == '/' ==> Scan(s).token == Error("Unexpected char")
  {
  }

  /** The tokens `next_token` yields, one after another, until it returns None. */
  function Lex(s: seq<char>): (r: seq<Token>)
    ensures |r| <= |s|
    ensures r == [] <==> s == []
    decreases |s|
  {
    if s == [] then [] else [Scan(s).token] + Lex(s[Scan(s).len..])
  }

  /** `next_token` on a token stream, skipping nothing. */
  function NextRaw(ts: seq<Token>): (Option<Token>, seq<Token>) {
    if ts == [] then (None, []) else (Some(ts[0]), ts[1..])
  }

  /** What one `next_token` does to the token stream. */
  lemma LexStep(s: seq<char>)
    ensures NextRaw(Lex(s)) == if s == [] then (None, []) else (Some(Scan(s).token), Lex(s[Scan(s).len..]))
  {
  }

  /** Tokens `next_non_ws_token` skips. */
  predicate IsTrivia(t: Token) { t.Whitespace? || t.Comment? }

  /**
   * `next_non_ws_token` on a token stream: the first token that is not
   * whitespace or a comment, and the tokens after it.
   */
  function NextSig(ts: seq<Token>): (r: (Option<Token>, seq<Token>))
    ensures r.0.None? ==> r.1 == []
    ensures r.0.Some? ==> |r.1| < |ts|
    decreases |ts|
  {
    if ts == [] then (None, [])
    else if IsTrivia(ts[0]) then NextSig(ts[1..])
    else (Some(ts[0]), ts[1..])
  }

  /**
   * `next_non_ws_token` skips exactly the leading run of whitespace and
   * comments: it returns the first other token and the tokens after it, or
   * None when every token is trivia.
   */
  lemma {:induction false} NextSigSkipsTrivia(ts: seq<Token>)
    ensures var r := NextSig(ts);
      && |r.1| <= |ts| && r.1 == ts[|ts| - |r.1|..]
      && (r.0.None? ==> forall i :: 0 <= i < |ts| ==> IsTrivia(ts[i]))
      && (r.0.Some? ==> ts[|ts| - |r.1| - 1] == r.0.value && !IsTrivia(r.0.value))
      && (r.0.Some? ==> forall i :: 0 <= i < |ts| - |r.1| - 1 ==> IsTrivia(ts[i]))
    decreases |ts|
  {
    if ts != [] && IsTrivia(ts[0]) {
      NextSigSkipsTrivia(ts[1..]);
      var r := NextSig(ts);
      assert ts[1..][|ts| - 1 - |r.1|..] == ts[|ts| - |r.1|..];
      forall i | 0 <= i < |ts| && (r.0.None? || i < |ts| - |r.1| - 1) ensures IsTrivia(ts[i]) {
        if i > 0 { assert ts[i] == ts[1..][i - 1]; }
      }
      if r.0.Some? {
        assert ts[|ts| - |r.1| - 1] == ts[1..][|ts| - 1 - |r.1| - 1];
      }
    }
  }


  /** The tokens `next_non_ws_token` would return, one after another. */
  function Significant(ts: seq<Token>): (r: seq<Token>)
    decreases |ts|
  {
    if ts == [] then []
    else if IsTrivia(ts[0]) then Significant(ts[1..])
    else [ts[0]] + Significant(ts[1..])
  }

  /** Each `next_non_ws_token` takes the head of the significant tokens and leaves the others. */
  lemma {:induction false} NextSigSignificant(ts: seq<Token>)
    ensures NextSig(ts).0.None? <==> Significant(ts) == []
    ensures NextSig(ts).0.Some? ==> Significant(ts) == [NextSig(ts).0.value] + Significant(NextSig(ts).1)
    decreases |ts|
  {
    if ts != [] && IsTrivia(ts[0]) {
      NextSigSignificant(ts[1..]);
    }
  }

  /** One `next_non_ws_token` in terms of the significant tokens: it returns their head and leaves their tail. */
  lemma SigStep(ts: seq<Token>)
    ensures var (t, r) := NextSig(ts);
      && (t.None? <==> Significant(ts) == [])
      && (t.Some? ==> Significant(ts)[0] == t.value && Significant(r) == Significant(ts)[1..])
  {
    NextSigSignificant(ts);
  }

  /** The counters `(linenum, colnum)` of a parser. */
  datatype Pos = Pos(line: nat, col: nat)

  /** What `next_char` does to the counters for a character it takes from the input. */
  function Step(p: Pos, c: char): Pos {
    if c == '\n' then Pos(p.line + 1, 1) else Pos(p.line, p.col + 1)
  }

  /** The counters after stepping over every character of `s`. */
  function Advance(p: Pos, s: seq<char>): Pos
    decreases |s|
  {
    if s == [] then p else Step(Advance(p, s[..|s| - 1]), s[|s| - 1])
  }

  function NewlineCount(s: seq<char>): nat
    decreases |s|
  {
    if s == [] then 0 else NewlineCount(s[..|s| - 1]) + (if s[|s| - 1] == '\n' then 1 else 0)
  }

  /**
   * The line counter grows by the number of newlines stepped over; the column
   * counts the characters since the last newline, or grows by `|s|` without one.
   */
  lemma {:induction false} AdvanceCounts(p: Pos, s: seq<char>)
    ensures Advance(p, s).line == p.line + NewlineCount(s)
    ensures NewlineCount(s) == 0 ==> Advance(p, s).col == p.col + |s|
    ensures forall k :: 0 <= k < |s| && s[k] == '\n' && (forall j :: k < j < |s| ==> s[j] != '\n') ==>
              Advance(p, s).col == |s| - k
    decreases |s|
  {
    if s != [] {
      var s' := s[..|s| - 1];
      AdvanceCounts(p, s');
      forall k | 0 <= k < |s| && s[k] == '\n' && (forall j :: k < j < |s| ==> s[j] != '\n')
        ensures Advance(p, s).col == |s| - k
      {
        if k < |s| - 1 {
          assert s'[k] == s[k];
          forall j | k < j < |s'| ensures s'[j] != '\n' { assert s'[j] == s[j]; }
        }
      }
    }
  }

  /**
   * The characters of `s[lo..hi]` that `next_char` counts while reading a
   * token: inside a block comment the character after a `*` is read by
   * `peek_char`, which does not count, so it is left out.
   */
  function Counted(s: seq<char>, lo: nat, hi: nat, block: bool): seq<char>
    requires lo <= hi <= |s|
    decreases hi
  {
    if hi == lo then []
    else Counted(s, lo, hi - 1, block) + (if block && hi - 1 >= 3 && s[hi - 2] == '*' then [] else [s[hi - 1]])
  }

  /**
   * The counters after `next_char` has read `s[lo..hi]` for one token,
   * computed character by character; `block` says the token is a block
   * comment, whose characters after a `*` are peeked and not counted.
   */
  function Track(p: Pos, s: seq<char>, lo: nat, hi: nat, block: bool): Pos
    requires lo <= hi <= |s|
    decreases hi
  {
    if hi == lo then p
    else if block && hi - 1 >= 3 && s[hi - 2] == '*' then Track(p, s, lo, hi - 1, block)
    else Step(Track(p, s, lo, hi - 1, block), s[hi - 1])
  }

  /** `Track` steps the counters over exactly the counted characters. */
  lemma {:induction false} TrackCounted(p: Pos, s: seq<char>, lo: nat, hi: nat, block: bool)
    requires lo <= hi <= |s|
    ensures Track(p, s, lo, hi, block) == Advance(p, Counted(s, lo, hi, block))
    decreases hi
  {
    if hi > lo {
      TrackCounted(p, s, lo, hi - 1, block);
      var x := Counted(s, lo, hi - 1, block);
      if !(block && hi - 1 >= 3 && s[hi - 2] == '*') {
        assert Counted(s, lo, hi, block) == x + [s[hi - 1]];
        assert (x + [s[hi - 1]])[..|x|] == x;
      } else {
        assert Counted(s, lo, hi, block) == x + [];
        assert x + [] == x;
      }
    }
  }

  /** Outside block comments every character read is counted. */
  lemma {:induction false} CountedPlain(s: seq<char>, lo: nat, hi: nat)
    requires lo <= hi <= |s|
    ensures Counted(s, lo, hi, false) == s[lo..hi]
    decreases hi
  {
    if hi > lo {
      CountedPlain(s, lo, hi - 1);
      assert s[lo..hi] == s[lo..hi - 1] + [s[hi - 1]];
    }
  }

  /** Tracking over `[lo, hi)` is tracking over `[lo, mid)` and then over `[mid, hi)`. */
  lemma {:induction false} TrackSplit(p: Pos, s: seq<char>, lo: nat, mid: nat, hi: nat, block: bool)
    requires lo <= mid <= hi <= |s|
    ensures Track(p, s, lo, hi, block) == Track(Track(p, s, lo, mid, block), s, mid, hi, block)
    decreases hi
  {
    if hi > mid {
      TrackSplit(p, s, lo, mid, hi - 1, block);
    }
  }

  /** Outside block comments, tracking over a suffix is tracking over the same characters in place. */
  lemma {:induction false} TrackShift(p: Pos, s: seq<char>, k: nat, hi: nat)
    requires k + hi <= |s|
    ensures Track(p, s[k..], 0, hi, false) == Track(p, s, k, k + hi, false)
    decreases hi
  {
    if hi > 0 {
      TrackShift(p, s, k, hi - 1);
    }
  }

  /** No character before the fourth is ever peeked. */
  lemma {:induction false} TrackHead(p: Pos, s: seq<char>, lo: nat, hi: nat, block: bool)
    requires lo <= hi <= |s| && hi <= 3
    ensures Track(p, s, lo, hi, block) == Track(p, s, lo, hi, false)
    decreases hi
  {
    if hi > lo {
      TrackHead(p, s, lo, hi - 1, block);
    }
  }
}
