/**
 * The `Parser` of src/parser.rs: a one-character pushback over a character
 * iterator, line and column counters, the tokenizer and the recursive-descent
 * methods, each proved to do what the pure specification in `Lexer` and
 * `Grammar` says.
 */
module Parsing {
  import opened Wrappers
  import opened Intern
  import opened Ast
  import opened Lexer
  import opened Grammar

  class Parser {
    /** The parser's interner (`intern`). */
    const intern: StringIntern
    var linenum: nat
    var colnum: nat
    /** The characters the iterator has not produced yet. */
    var rest: seq<char>
    /** The pushed-back or peeked character (`next_char`). */
    var pending: Option<char>

    /** The characters still to be read: the pending one first. */
    ghost function Stream(): seq<char>
      reads this
    {
      (if pending.Some? then [pending.value] else []) + rest
    }

    /** The tokens still to be read. */
    ghost function Tokens(): seq<Token>
      reads this
    {
      Lex(Stream())
    }

    function Position(): Pos
      reads this
    {
      Pos(linenum, colnum)
    }

    ghost predicate Valid()
      reads this, intern
    {
      intern.Valid()
    }

    /** A method's result agrees with the grammar's: the same failure, or the same value with the parser left where the grammar leaves it. */
    ghost predicate Follows<T>(r: Result<T, ParseError>, spec: Outcome<T>)
      reads this, intern
    {
      match spec
      case Ok(p) => r == Ok(p.value) && Tokens() == p.rest && intern.entries == p.names
      case Err(e) => r == Err(e)
    }

    constructor (input: seq<char>)
      ensures Valid() && fresh(intern) && intern.entries == []
      ensures rest == input && pending.None? && Position() == Pos(0, 0)
      ensures Tokens() == Lex(input)
    {
      intern := new StringIntern();
      linenum := 0;
      colnum := 0;
      rest := input;
      pending := None;
      new;
      assert Stream() == input;
    }

    /** Pushes one character back; only one may be pending. */
    method UnnextChar(c: Option<char>)
      requires pending.None?
      modifies this
      ensures pending == c && rest == old(rest) && Position() == old(Position())
    {
      pending := c;
    }

    /**
     * The next character: a pending one without touching the counters, else
     * the iterator's next, stepping the counters over it.
     */
    method NextChar() returns (c: Option<char>)
      modifies this
      ensures pending.None?
      ensures old(pending).Some? ==> c == old(pending) && rest == old(rest)
      ensures old(pending).None? && old(rest) != [] ==> c == Some(old(rest)[0]) && rest == old(rest)[1..]
      ensures old(pending).None? && old(rest) == [] ==> c.None? && rest == []
      ensures Position() == if old(pending).None? && old(rest) != [] then Step(old(Position()), old(rest)[0]) else old(Position())
    {
      if pending.Some? {
        c := pending;
        pending := None;
        return;
      }
      if rest == [] {
        return None;
      }
      var k := rest[0];
      rest := rest[1..];
      if k == '\n' {
        linenum := linenum + 1;
        colnum := 0;
      }
      colnum := colnum + 1;
      c := Some(k);
    }

    /** The next character without consuming it or touching the counters. */
    method PeekChar() returns (c: Option<char>)
      modifies this
      ensures Stream() == old(Stream()) && Position() == old(Position())
      ensures c == (if old(Stream()) == [] then None else Some(old(Stream())[0]))
      ensures old(pending).Some? ==> pending == old(pending) && rest == old(rest)
      ensures old(pending).None? && old(rest) != [] ==> pending == Some(old(rest)[0]) && rest == old(rest)[1..]
      ensures old(pending).None? && old(rest) == [] ==> pending.None? && rest == []
    {
      if pending.Some? {
        return pending;
      }
      if rest != [] {
        pending := Some(rest[0]);
        rest := rest[1..];
      }
      c := pending;
    }

    /**
     * The loop shared by identifiers, numbers and whitespace: reads the
     * characters satisfying `p` and pushes back the first one that does not.
     */
    method ReadRun(p: char -> bool) returns (s: string)
      requires pending.None?
      modifies this
      ensures |s| == Span(old(rest), p) && s == old(rest)[..|s|]
      ensures Stream() == old(rest)[|s|..] && |rest| <= |old(rest)|
      ensures Position() == Track(old(Position()), old(rest), 0, |old(rest)| - |rest|, false)
    {
      ghost var r0 := rest;
      ghost var p0 := Position();
      s := [];
      var next := NextChar();
      while next.Some? && p(next.value)
        invariant pending.None?
        invariant |s| <= |r0| && s == r0[..|s|]
        invariant forall k :: 0 <= k < |s| ==> p(r0[k])
        invariant next.Some? ==> |s| < |r0| && next.value == r0[|s|] && rest == r0[|s| + 1..]
        invariant next.None? ==> |s| == |r0| && rest == []
        invariant Position() == Track(p0, r0, 0, |r0| - |rest|, false)
        decreases |r0| - |s|
      {
        s := s + [next.value];
        next := NextChar();
      }
      SpanIs(r0, p, |s|);
      if next.Some? {
        UnnextChar(next);
        assert Stream() == r0[|s|..];
      }
    }

    /** The loop of a line comment: the characters up to a newline, which is consumed. */
    method ReadLine() returns (s: string)
      requires pending.None?
      modifies this
      ensures |s| == Span(old(rest), NotNewline) && s == old(rest)[..|s|]
      ensures pending.None? && rest == old(rest)[if |s| < |old(rest)| then |s| + 1 else |s|..]
      ensures Position() == Track(old(Position()), old(rest), 0, |old(rest)| - |rest|, false)
    {
      ghost var r0 := rest;
      ghost var p0 := Position();
      s := [];
      var next := NextChar();
      while next.Some? && next.value != '\n'
        invariant pending.None?
        invariant |s| <= |r0| && s == r0[..|s|]
        invariant forall k :: 0 <= k < |s| ==> NotNewline(r0[k])
        invariant next.Some? ==> |s| < |r0| && next.value == r0[|s|] && rest == r0[|s| + 1..]
        invariant next.None? ==> |s| == |r0| && rest == []
        invariant Position() == Track(p0, r0, 0, |r0| - |rest|, false)
        decreases |r0| - |s|
      {
        s := s + [next.value];
        next := NextChar();
      }
      SpanIs(r0, NotNewline, |s|);
    }

    /**
     * The loop of a block comment, entered after slash-star: the comment up to the
     * first star-slash, or an error once the input runs out. The character
     * after each `*` is peeked, so it is not counted.
     */
    method ReadBlock(ghost s0: seq<char>) returns (t: Token)
      requires IsBlockOpen(s0) && pending.None? && rest == s0[2..]
      modifies this
      ensures BlockEnd(s0, 2).Some? ==>
        t == Comment(s0[..BlockEnd(s0, 2).value + 2]) && Stream() == s0[BlockEnd(s0, 2).value + 2..]
      ensures BlockEnd(s0, 2).None? ==> t == Error("Expected /") && Stream() == []
      ensures pending.None? && |rest| <= |old(rest)|
      ensures Position() == Track(old(Position()), s0, 2, |s0| - |rest|, true)
    {
      ghost var p1 := Position();
      var s := ['/', '*'];
      var next := NextChar();
      while next.Some?
        invariant 2 <= |s| <= |s0| && s == s0[..|s|]
        invariant pending.None?
        invariant next.Some? ==> |s| < |s0| && next.value == s0[|s|] && rest == s0[|s| + 1..]
        invariant next.None? ==> |s| == |s0| && rest == []
        invariant BlockEnd(s0, |s|) == BlockEnd(s0, 2)
        invariant Position() == Track(p1, s0, 2, |s0| - |rest|, true)
        decreases |s0| - |s|
      {
        var c := next.value;
        ghost var i := |s|;
        s := s + [c];
        assert s == s0[..i + 1];
        if c == '*' {
          var peeked := PeekChar();
          if peeked == Some('/') {
            var _ := NextChar();
            s := s + ['/'];
            assert s == s0[..i + 2];
            assert BlockEnd(s0, i) == Some(i);
            return Comment(s);
          }
          assert BlockEnd(s0, i) == BlockEnd(s0, i + 1);
          next := NextChar();
        } else {
          assert BlockEnd(s0, i) == BlockEnd(s0, i + 1);
          next := NextChar();
        }
      }
      return Error("Expected /");
    }

    /** `next_token` has just read `s0[0]`, the counters having stood at `p0` with `off` characters of `s0` already drawn. */
    ghost predicate AtFirst(s0: seq<char>, p0: Pos, off: nat)
      reads this
    {
      s0 != [] && off <= 1 && pending.None? && rest == s0[1..] && Position() == Track(p0, s0, off, 1, false)
    }

    /** `next_token` has read from `s0` the token `t` that `Scan` describes, stepping the counters from `p0`. */
    ghost predicate Lexed(s0: seq<char>, p0: Pos, off: nat, t: Token)
      reads this
    {
      && s0 != [] && off + |rest| <= |s0|
      && t == Scan(s0).token && Stream() == s0[Scan(s0).len..]
      && Position() == Track(p0, s0, off, |s0| - |rest|, IsBlockOpen(s0))
    }

    /** The identifier branch of `next_token`. */
    method LexIdent(ghost s0: seq<char>, ghost p0: Pos, ghost off: nat, c: char) returns (t: Token)
      requires AtFirst(s0, p0, off) && c == s0[0] && IsIdentStart(c)
      modifies this
      ensures Lexed(s0, p0, off, t)
    {
      ghost var p1 := Position();
      var s := ReadRun(IsIdentChar);
      ScanIdent(s0);
      TrackShift(p1, s0, 1, |s0| - 1 - |rest|);
      TrackSplit(p0, s0, off, 1, |s0| - |rest|, false);
      assert [c] + s == s0[..1 + |s|];
      t := Ident([c] + s);
    }

    /** The number branch of `next_token`. */
    method LexNumber(ghost s0: seq<char>, ghost p0: Pos, ghost off: nat, c: char) returns (t: Token)
      requires AtFirst(s0, p0, off) && c == s0[0] && IsNumeric(c)
      modifies this
      ensures Lexed(s0, p0, off, t)
    {
      ghost var p1 := Position();
      var s := ReadRun(IsNumeric);
      ScanNumber(s0);
      TrackShift(p1, s0, 1, |s0| - 1 - |rest|);
      TrackSplit(p0, s0, off, 1, |s0| - |rest|, false);
      assert [c] + s == s0[..1 + |s|];
      t := Number([c] + s);
    }

    /** The whitespace branch of `next_token`. */
    method LexWhitespace(ghost s0: seq<char>, ghost p0: Pos, ghost off: nat, c: char) returns (t: Token)
      requires AtFirst(s0, p0, off) && c == s0[0] && IsWhitespace(c)
      modifies this
      ensures Lexed(s0, p0, off, t)
    {
      ghost var p1 := Position();
      var _ := ReadRun(IsWhitespace);
      ScanWhitespace(s0);
      TrackShift(p1, s0, 1, |s0| - 1 - |rest|);
      TrackSplit(p0, s0, off, 1, |s0| - |rest|, false);
      t := Whitespace;
    }

    /**
     * The comment branch of `next_token`, after a `/`: None, touching
     * nothing, when the input ends there.
     */
    method LexSlash(ghost s0: seq<char>, ghost p0: Pos, ghost off: nat) returns (t: Option<Token>)
      requires AtFirst(s0, p0, off) && s0[0] == '/'
      modifies this
      ensures t.None? ==> s0 == ['/'] && AtFirst(s0, p0, off)
      ensures t.Some? ==> Lexed(s0, p0, off, t.value)
    {
      ghost var p1 := Position();
      var second := NextChar();
      if second.None? {
        return None;
      }
      var d := second.value;
      assert d == s0[1] && rest == s0[2..];
      ghost var p2 := Position();
      assert p2 == Track(p0, s0, off, 2, IsBlockOpen(s0));
      if d == '/' {
        var body := ReadLine();
        ScanLineComment(s0);
        TrackShift(p2, s0, 2, |s0| - 2 - |rest|);
        TrackSplit(p0, s0, off, 2, |s0| - |rest|, false);
        assert ['/', '/'] + body == s0[..2 + |body|];
        return Some(Comment(['/', '/'] + body));
      } else if d == '*' {
        var tok := ReadBlock(s0);
        ScanBlockComment(s0);
        TrackSplit(p0, s0, off, 2, |s0| - |rest|, true);
        return Some(tok);
      }
      ScanBadSlash(s0);
      return Some(Error("Expected /"));
    }

    /** `next_token`: the token `Scan` describes, or None at the end of the input. */
    method NextToken() returns (t: Option<Token>)
      modifies this
      ensures old(Stream()) == [] ==> t.None? && Stream() == [] && Position() == old(Position())
      ensures old(Stream()) != [] ==> t.Some? && Lexed(old(Stream()), old(Position()), |old(Stream())| - |old(rest)|, t.value)
      ensures (t, Tokens()) == NextRaw(old(Tokens()))
    {
      ghost var s0 := Stream();
      ghost var p0 := Position();
      ghost var off := |s0| - |rest|;
      var first := NextChar();
      if first.None? {
        LexStep(s0);
        return None;
      }
      var c := first.value;
      assert AtFirst(s0, p0, off);
      var tok: Token;
      if IsIdentStart(c) {
        tok := LexIdent(s0, p0, off, c);
      } else {
        var slash: Option<Token> := None;
        if c == '/' {
          slash := LexSlash(s0, p0, off);
        }
        if slash.Some? {
          tok := slash.value;
        } else if IsNumeric(c) {
          tok := LexNumber(s0, p0, off, c);
        } else if IsWhitespace(c) {
          tok := LexWhitespace(s0, p0, off, c);
        } else {
          ScanSingle(s0);
          tok := Punctuation(c);
        }
      }
      assert Lexed(s0, p0, off, tok);
      t := Some(tok);
      LexStep(s0);
    }

    /** `next_non_ws_token`: the next token that is not whitespace or a comment. */
    method NextNonWsToken() returns (t: Option<Token>)
      modifies this
      ensures (t, Tokens()) == NextSig(old(Tokens()))
    {
      while true
        invariant NextSig(Tokens()) == NextSig(old(Tokens()))
        decreases |Tokens()|
      {
        var tok := NextToken();
        if tok.None? || !IsTrivia(tok.value) {
          return tok;
        }
      }
    }

    /** `parse_field_of_type`: the field whose type name `typeName` was already read. */
    method ParseFieldOfType(typeName: string) returns (r: Result<Field, ParseError>)
      requires Valid()
      modifies this, intern
      ensures Valid()
      ensures Follows(r, PField(old(Tokens()), old(intern.entries), typeName))
    {
      ghost var ts0 := Tokens();
      ghost var n0 := intern.entries;
      var ftype: FieldType;
      if typeName == "int32" {
        ftype := Int32;
      } else if typeName == "int64" {
        ftype := Int64;
      } else if typeName == "uint32" {
        ftype := Uint32;
      } else if typeName == "uint64" {
        ftype := Uint64;
      } else if typeName == "string" {
        ftype := String;
      } else {
        var id := intern.GetId(typeName);
        ftype := MessageRef(id);
      }
      assert (intern.entries, ftype) == FieldTypeOf(n0, typeName);
      var t1 := NextNonWsToken();
      if !(t1.Some? && t1.value.Ident?) {
        return Err(ParseError("expected a field name"));
      }
      var name := intern.GetId(t1.value.text);
      ghost var ts1 := Tokens();
      ghost var n1 := intern.entries;
      var t2 := NextNonWsToken();
      if t2 != Some(Equals) {
        return Err(ParseError("expected ="));
      }
      var t3 := NextNonWsToken();
      if !(t3.Some? && t3.value.Number?) {
        return Err(ParseError("expected a field number"));
      }
      var idx := ParseU32(t3.value.text);
      if idx.None? {
        return Err(ParseError("the field number is not a u32"));
      }
      var t4 := NextNonWsToken();
      if t4 != Some(Semicolon) {
        return Err(ParseError("expected ;"));
      }
      assert PField(ts0, n0, typeName) == PFieldIndex(ts1, n1, name, ftype);
      return Ok(Field(name, idx.value, ftype, false));
    }

    /** `parse_message`, entered after the keyword `message`; nested messages recurse. */
    method ParseMessage() returns (r: Result<Message, ParseError>)
      requires Valid()
      modifies this, intern
      ensures Valid()
      ensures Follows(r, PMessage(old(Tokens()), old(intern.entries)))
      decreases |Tokens()|
    {
      ghost var ts0 := Tokens();
      ghost var spec := PMessage(ts0, intern.entries);
      var t1 := NextNonWsToken();
      if !(t1.Some? && t1.value.Ident?) {
        return Err(ParseError("expected a message name"));
      }
      var name := intern.GetId(t1.value.text);
      var t2 := NextNonWsToken();
      if t2 != Some(BraceOpen) {
        return Err(ParseError("expected {"));
      }
      var message := Message(name, [], [], []);
      while true
        invariant Valid()
        invariant |Tokens()| < |ts0|
        invariant spec == PMessageBody(Tokens(), intern.entries, message)
        decreases |Tokens()|
      {
        var tok := NextNonWsToken();
        if tok == Some(BraceClose) {
          return Ok(message);
        }
        if !(tok.Some? && tok.value.Ident?) {
          return Err(ParseError("expected a field, a message or }"));
        }
        if tok.value.text == "message" {
          var m := ParseMessage();
          if m.Err? {
            return Err(m.error);
          }
          message := message.(messages := message.messages + [m.value]);
        } else if tok.value.text == "optional" {
          var t := NextNonWsToken();
          if !(t.Some? && t.value.Ident?) {
            return Err(ParseError("expected a type after optional"));
          }
          var field := ParseFieldOfType(t.value.text);
          if field.Err? {
            return Err(field.error);
          }
          message := message.(fields := message.fields + [field.value.(optional := true)]);
        } else {
          var field := ParseFieldOfType(tok.value.text);
          if field.Err? {
            return Err(field.error);
          }
          message := message.(fields := message.fields + [field.value]);
        }
      }
    }

    /** `parse_rpc`, entered after the keyword `rpc`: `name ( arg ) returns ( ret ) ;`. */
    method ParseRpc() returns (r: Result<Rpc, ParseError>)
      requires Valid()
      modifies this, intern
      ensures Valid()
      ensures Follows(r, PRpc(old(Tokens()), old(intern.entries)))
    {
      ghost var ts0 := Tokens();
      ghost var n0 := intern.entries;
      var t1 := NextNonWsToken();
      if !(t1.Some? && t1.value.Ident?) {
        return Err(ParseError("expected an rpc name"));
      }
      var name := intern.GetId(t1.value.text);
      var t2 := NextNonWsToken();
      if t2 != Some(ParensOpen) {
        return Err(ParseError("expected ("));
      }
      var t3 := NextNonWsToken();
      if !(t3.Some? && t3.value.Ident?) {
        return Err(ParseError("expected an argument type"));
      }
      var arg := intern.GetId(t3.value.text);
      var t4 := NextNonWsToken();
      if t4 != Some(ParensClose) {
        return Err(ParseError("expected )"));
      }
      ghost var ts4 := Tokens();
      ghost var n4 := intern.entries;
      assert PRpc(ts0, n0) == PRpcReturns(ts4, n4, name, arg);
      var t5 := NextNonWsToken();
      if t5 != Some(Ident("returns")) {
        return Err(ParseError("expected returns"));
      }
      var t6 := NextNonWsToken();
      if t6 != Some(ParensOpen) {
        return Err(ParseError("expected ("));
      }
      var t7 := NextNonWsToken();
      if !(t7.Some? && t7.value.Ident?) {
        return Err(ParseError("expected a return type"));
      }
      var ret := intern.GetId(t7.value.text);
      var t8 := NextNonWsToken();
      if t8 != Some(ParensClose) {
        return Err(ParseError("expected )"));
      }
      var t9 := NextNonWsToken();
      if t9 != Some(Semicolon) {
        return Err(ParseError("expected ;"));
      }
      return Ok(Rpc(name, arg, ret));
    }

    /** `parse_service`, entered after the keyword `service`: rpcs up to the closing brace. */
    method ParseService() returns (r: Result<TopLevelParse, ParseError>)
      requires Valid()
      modifies this, intern
      ensures Valid()
      ensures Follows(r, PService(old(Tokens()), old(intern.entries)))
    {
      ghost var ts0 := Tokens();
      ghost var n0 := intern.entries;
      var t1 := NextNonWsToken();
      if !(t1.Some? && t1.value.Ident?) {
        return Err(ParseError("expected a service name"));
      }
      var name := intern.GetId(t1.value.text);
      var t2 := NextNonWsToken();
      if t2 != Some(BraceOpen) {
        return Err(ParseError("expected {"));
      }
      ghost var body := PServiceBody(Tokens(), intern.entries, Service(name, []));
      assert PService(ts0, n0) == match body
        case Err(e) => Err(e)
        case Ok(p) => Ok(Parsed(ServiceItem(p.value), p.rest, p.names));
      var service := Service(name, []);
      while true
        invariant Valid()
        invariant body == PServiceBody(Tokens(), intern.entries, service)
        decreases |Tokens()|
      {
        var tok := NextNonWsToken();
        if tok == Some(BraceClose) {
          return Ok(ServiceItem(service));
        }
        if tok != Some(Ident("rpc")) {
          return Err(ParseError("expected rpc or }"));
        }
        var rpc := ParseRpc();
        if rpc.Err? {
          return Err(rpc.error);
        }
        service := service.(rpcs := service.rpcs + [rpc.value]);
      }
    }

    /**
     * `parse_syntax`, entered after the keyword `syntax`; `proto3` is read
     * with `next_token`, so nothing may stand between it and the quote.
     */
    method ParseSyntax() returns (r: Result<TopLevelParse, ParseError>)
      requires Valid()
      modifies this
      ensures Valid()
      ensures Follows(r, PSyntax(old(Tokens()), intern.entries))
    {
      var t1 := NextNonWsToken();
      if t1 != Some(Equals) {
        return Err(ParseError("expected ="));
      }
      var t2 := NextNonWsToken();
      if t2 != Some(Quote) {
        return Err(ParseError("expected a quote"));
      }
      var t3 := NextToken();
      if t3 != Some(Ident("proto3")) {
        return Err(ParseError("expected proto3"));
      }
      var t4 := NextNonWsToken();
      if t4 != Some(Quote) {
        return Err(ParseError("expected a quote"));
      }
      var t5 := NextNonWsToken();
      if t5 != Some(Semicolon) {
        return Err(ParseError("expected ;"));
      }
      return Ok(SyntaxStatement);
    }

    /** `next_parse`: the next top-level item, or None once only trivia is left. */
    method NextParse() returns (r: Option<Result<TopLevelParse, ParseError>>)
      requires Valid()
      modifies this, intern
      ensures Valid()
      ensures PNext(old(Tokens()), old(intern.entries)).None? ==>
        r.None? && Tokens() == [] && intern.entries == old(intern.entries)
      ensures PNext(old(Tokens()), old(intern.entries)).Some? ==>
        r.Some? && Follows(r.value, PNext(old(Tokens()), old(intern.entries)).value)
    {
      var tok := NextNonWsToken();
      if tok.None? {
        return None;
      }
      if tok == Some(Ident("syntax")) {
        var item := ParseSyntax();
        return Some(item);
      }
      if tok == Some(Ident("service")) {
        var item := ParseService();
        return Some(item);
      }
      if tok == Some(Ident("message")) {
        var m := ParseMessage();
        return Some(if m.Ok? then Ok(MessageItem(m.value)) else Err(m.error));
      }
      return Some(Err(ParseError("Unexpected token")));
    }

    /** `parse`: a syntax statement first, then services and messages until the tokens run out. */
    method Parse() returns (r: Result<ParseTree, ParseError>)
      requires Valid()
      modifies this, intern
      ensures Valid()
      ensures r == PParse(old(Tokens()), old(intern.entries))
    {
      ghost var spec := PParse(Tokens(), intern.entries);
      var first := NextParse();
      if first.None? || (first.value.Ok? && first.value.value != SyntaxStatement) {
        return Err(ParseError("expected the syntax statement first"));
      }
      if first.value.Err? {
        return Err(first.value.error);
      }
      var messages: seq<Message> := [];
      var services: seq<Service> := [];
      while true
        invariant Valid()
        invariant spec == PItems(Tokens(), intern.entries, messages, services)
        decreases |Tokens()|
      {
        var item := NextParse();
        if item.None? {
          break;
        }
        if item.value.Err? {
          return Err(item.value.error);
        }
        match item.value.value
        case ServiceItem(s) =>
          services := services + [s];
        case MessageItem(m) =>
          messages := messages + [m];
        case _ =>
          return Err(ParseError("unexpected top-level item"));
      }
      var tree := ParseTree(messages, [], services, intern.entries);
      r := match Validate(tree)
        case Err(e) => Err(e)
        case Ok(_) => Ok(tree);
    }
  }

  /** Parsing a text from a fresh parser: the grammar on its tokens, from an empty interner. */
  method ParseInput(input: string) returns (r: Result<ParseTree, ParseError>)
    ensures r == ParseText(input)
  {
    var parser := new Parser(input);
    r := parser.Parse();
  }
}
