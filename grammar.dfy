/**
 * The recursive-descent grammar of src/parser.rs as pure functions over the
 * token stream: each function reads tokens the way the `Parser` method of the
 * same role does, threads the interner's entries through, and returns the
 * value built, the tokens left and the entries after it.
 *
 * Every failure of the parser is a `todo!()`, `panic!()` or `unwrap()`: the
 * source never builds a `ParseError` itself. Here each such abort is an
 * `Err(ParseError(reason))`, and `?` passes it up unchanged.
 */
module Grammar {
  import opened Wrappers
  import opened Intern
  import opened Ast
  import opened Lexer

  /** A successful parse: the value, the tokens after it, the interner's entries after it. */
  datatype Parsed<T> = Parsed(value: T, rest: seq<Token>, names: seq<string>)

  type Outcome<T> = Result<Parsed<T>, ParseError>

  /** The type names `parse_field_of_type` maps to scalar types. */
  function ScalarType(name: string): (r: Option<FieldType>)
    ensures r.Some? <==> name in {"int32", "int64", "uint32", "uint64", "string"}
    ensures r.Some? ==> r.value in {Int32, Int64, Uint32, Uint64, String}
  {
    if name == "int32" then Some(Int32)
    else if name == "int64" then Some(Int64)
    else if name == "uint32" then Some(Uint32)
    else if name == "uint64" then Some(Uint64)
    else if name == "string" then Some(String)
    else None
  }

  function DigitsValue(s: string): nat
    requires forall k :: 0 <= k < |s| ==> IsAsciiDigit(s[k])
    decreases |s|
  {
    if s == [] then 0
    else
      var d := s[|s| - 1] as int - '0' as int;
      assert IsAsciiDigit(s[|s| - 1]);
      DigitsValue(s[..|s| - 1]) * 10 + d
  }

  /** `str::parse::<u32>` on a token's text: one or more ASCII digits whose value fits. */
  function ParseU32(s: string): (r: Option<u32>)
    ensures r.Some? <==> s != [] && (forall k :: 0 <= k < |s| ==> IsAsciiDigit(s[k])) && DigitsValue(s) < 0x1_0000_0000
    ensures r.Some? ==> r.value == DigitsValue(s)
  {
    if s != [] && (forall k :: 0 <= k < |s| ==> IsAsciiDigit(s[k])) && DigitsValue(s) < 0x1_0000_0000
    then Some(DigitsValue(s)) else None
  }

  /** The type half of `parse_field_of_type`: the interner after it and the type. */
  function FieldTypeOf(names: seq<string>, typeName: string): (r: (seq<string>, FieldType))
    ensures Grows(names, r.0)
    ensures ScalarType(typeName).Some? ==> r == (names, ScalarType(typeName).value)
    ensures ScalarType(typeName).None? ==> r.1.MessageRef? && r.1.id < |r.0| && r.0[r.1.id] == typeName
  {
    InternGrows(names, typeName);
    match ScalarType(typeName)
    case Some(t) => (names, t)
    case None => var (n1, id) := Interned(names, typeName); (n1, MessageRef(id))
  }

  /** `parse_field_of_type`: the field whose type name was already read. */
  function PField(ts: seq<Token>, names: seq<string>, typeName: string): (r: Outcome<Field>)
    ensures r.Ok? ==> |r.value.rest| < |ts|
  {
    var (names1, ftype) := FieldTypeOf(names, typeName);
    var (t1, ts1) := NextSig(ts);
    if !(t1.Some? && t1.value.Ident?) then Err(ParseError("expected a field name"))
    else
      var (names2, name) := Interned(names1, t1.value.text);
      PFieldIndex(ts1, names2, name, ftype)
  }

  /** The rest of `parse_field_of_type`: `= number ;`. */
  function PFieldIndex(ts: seq<Token>, names: seq<string>, name: StringId, ftype: FieldType): (r: Outcome<Field>)
    ensures r.Ok? ==> |r.value.rest| < |ts|
  {
    var (t2, ts2) := NextSig(ts);
    if t2 != Some(Equals) then Err(ParseError("expected ="))
    else
      var (t3, ts3) := NextSig(ts2);
      if !(t3.Some? && t3.value.Number?) then Err(ParseError("expected a field number"))
      else match ParseU32(t3.value.text)
        case None => Err(ParseError("the field number is not a u32"))
        case Some(idx) =>
          var (t4, ts4) := NextSig(ts3);
          if t4 != Some(Semicolon) then Err(ParseError("expected ;"))
          else Ok(Parsed(Field(name, idx, ftype, false), ts4, names))
  }

  /** `parse_message`, entered after the keyword `message`. */
  function PMessage(ts: seq<Token>, names: seq<string>): (r: Outcome<Message>)
    ensures r.Ok? ==> |r.value.rest| < |ts|
    decreases |ts|, 1
  {
    var (t1, ts1) := NextSig(ts);
    if !(t1.Some? && t1.value.Ident?) then Err(ParseError("expected a message name"))
    else
      var (names1, name) := Interned(names, t1.value.text);
      var (t2, ts2) := NextSig(ts1);
      if t2 != Some(BraceOpen) then Err(ParseError("expected {"))
      else PMessageBody(ts2, names1, Message(name, [], [], []))
  }

  /** The loop of `parse_message`: fields and nested messages up to the closing brace. */
  function PMessageBody(ts: seq<Token>, names: seq<string>, acc: Message): (r: Outcome<Message>)
    ensures r.Ok? ==> |r.value.rest| < |ts|
    decreases |ts|, 0
  {
    var (t, ts1) := NextSig(ts);
    if t == Some(BraceClose) then Ok(Parsed(acc, ts1, names))
    else if !(t.Some? && t.value.Ident?) then Err(ParseError("expected a field, a message or }"))
    else if t.value.text == "message" then
      match PMessage(ts1, names)
      case Err(e) => Err(e)
      case Ok(p) => PMessageBody(p.rest, p.names, acc.(messages := acc.messages + [p.value]))
    else if t.value.text == "optional" then
      var (t2, ts2) := NextSig(ts1);
      if !(t2.Some? && t2.value.Ident?) then Err(ParseError("expected a type after optional"))
      else match PField(ts2, names, t2.value.text)
        case Err(e) => Err(e)
        case Ok(p) => PMessageBody(p.rest, p.names, acc.(fields := acc.fields + [p.value.(optional := true)]))
    else
      match PField(ts1, names, t.value.text)
      case Err(e) => Err(e)
      case Ok(p) => PMessageBody(p.rest, p.names, acc.(fields := acc.fields + [p.value]))
  }

  /** `parse_rpc`, entered after the keyword `rpc`: `name ( arg )`, then the return type. */
  function PRpc(ts: seq<Token>, names: seq<string>): (r: Outcome<Rpc>)
    ensures r.Ok? ==> |r.value.rest| < |ts|
  {
    var (t1, ts1) := NextSig(ts);
    if !(t1.Some? && t1.value.Ident?) then Err(ParseError("expected an rpc name"))
    else
      var (names1, name) := Interned(names, t1.value.text);
      var (t2, ts2) := NextSig(ts1);
      if t2 != Some(ParensOpen) then Err(ParseError("expected ("))
      else
        var (t3, ts3) := NextSig(ts2);
        if !(t3.Some? && t3.value.Ident?) then Err(ParseError("expected an argument type"))
        else
          var (names2, arg) := Interned(names1, t3.value.text);
          var (t4, ts4) := NextSig(ts3);
          if t4 != Some(ParensClose) then Err(ParseError("expected )"))
          else PRpcReturns(ts4, names2, name, arg)
  }

  /** The rest of `parse_rpc`: `returns ( ret ) ;`. */
  function PRpcReturns(ts: seq<Token>, names: seq<string>, name: StringId, arg: StringId): (r: Outcome<Rpc>)
    ensures r.Ok? ==> |r.value.rest| < |ts|
  {
    var (t5, ts5) := NextSig(ts);
    if t5 != Some(Ident("returns")) then Err(ParseError("expected returns"))
    else
      var (t6, ts6) := NextSig(ts5);
      if t6 != Some(ParensOpen) then Err(ParseError("expected ("))
      else
        var (t7, ts7) := NextSig(ts6);
        if !(t7.Some? && t7.value.Ident?) then Err(ParseError("expected a return type"))
        else
          var (names3, ret) := Interned(names, t7.value.text);
          var (t8, ts8) := NextSig(ts7);
          if t8 != Some(ParensClose) then Err(ParseError("expected )"))
          else
            var (t9, ts9) := NextSig(ts8);
            if t9 != Some(Semicolon) then Err(ParseError("expected ;"))
            else Ok(Parsed(Rpc(name, arg, ret), ts9, names3))
  }

  /** `parse_service`, entered after the keyword `service`. */
  function PService(ts: seq<Token>, names: seq<string>): (r: Outcome<TopLevelParse>)
    ensures r.Ok? ==> |r.value.rest| < |ts| && r.value.value.ServiceItem?
  {
    var (t1, ts1) := NextSig(ts);
    if !(t1.Some? && t1.value.Ident?) then Err(ParseError("expected a service name"))
    else
      var (names1, name) := Interned(names, t1.value.text);
      var (t2, ts2) := NextSig(ts1);
      if t2 != Some(BraceOpen) then Err(ParseError("expected {"))
      else match PServiceBody(ts2, names1, Service(name, []))
        case Err(e) => Err(e)
        case Ok(p) => Ok(Parsed(ServiceItem(p.value), p.rest, p.names))
  }

  /** The loop of `parse_service`: rpcs up to the closing brace. */
  function PServiceBody(ts: seq<Token>, names: seq<string>, acc: Service): (r: Outcome<Service>)
    ensures r.Ok? ==> |r.value.rest| < |ts|
    decreases |ts|
  {
    var (t, ts1) := NextSig(ts);
    if t == Some(BraceClose) then Ok(Parsed(acc, ts1, names))
    else if t == Some(Ident("rpc")) then
      match PRpc(ts1, names)
      case Err(e) => Err(e)
      case Ok(p) => PServiceBody(p.rest, p.names, acc.(rpcs := acc.rpcs + [p.value]))
    else Err(ParseError("expected rpc or }"))
  }

  /**
   * `parse_syntax`, entered after the keyword `syntax`. `proto3` is read with
   * `next_token`, so it must follow the opening quote immediately.
   */
  function PSyntax(ts: seq<Token>, names: seq<string>): (r: Outcome<TopLevelParse>)
    ensures r.Ok? ==> |r.value.rest| < |ts| && r.value.value == SyntaxStatement && r.value.names == names
  {
    var (t1, ts1) := NextSig(ts);
    if t1 != Some(Equals) then Err(ParseError("expected ="))
    else
      var (t2, ts2) := NextSig(ts1);
      if t2 != Some(Quote) then Err(ParseError("expected a quote"))
      else
        var (t3, ts3) := NextRaw(ts2);
        if t3 != Some(Ident("proto3")) then Err(ParseError("expected proto3"))
        else
          var (t4, ts4) := NextSig(ts3);
          if t4 != Some(Quote) then Err(ParseError("expected a quote"))
          else
            var (t5, ts5) := NextSig(ts4);
            if t5 != Some(Semicolon) then Err(ParseError("expected ;"))
            else Ok(Parsed(SyntaxStatement, ts5, names))
  }

  /** `next_parse`: the next top-level item, or None once only trivia is left. */
  function PNext(ts: seq<Token>, names: seq<string>): (r: Option<Outcome<TopLevelParse>>)
    ensures r.None? <==> NextSig(ts).0.None?
    ensures r.Some? && r.value.Ok? ==> |r.value.value.rest| < |ts|
  {
    var (t, ts1) := NextSig(ts);
    if t.None? then None
    else if t == Some(Ident("syntax")) then Some(PSyntax(ts1, names))
    else if t == Some(Ident("service")) then Some(PService(ts1, names))
    else if t == Some(Ident("message")) then
      Some(match PMessage(ts1, names)
        case Err(e) => Err(e)
        case Ok(p) => Ok(Parsed(MessageItem(p.value), p.rest, p.names)))
    else Some(Err(ParseError("Unexpected token")))
  }

  /** `validate`, which accepts every tree. */
  function Validate(t: ParseTree): (r: Result<(), ParseError>)
    ensures r.Ok?
  {
    Ok(())
  }

  /** `parse`: a syntax statement, then services and messages until the tokens run out. */
  function PParse(ts: seq<Token>, names: seq<string>): (r: Result<ParseTree, ParseError>)
    ensures r.Ok? ==> NextSig(ts).0 == Some(Ident("syntax")) && r.value.enums == []
  {
    match PNext(ts, names)
    case Some(Ok(p)) =>
      if p.value == SyntaxStatement then PItems(p.rest, p.names, [], [])
      else Err(ParseError("expected the syntax statement first"))
    case Some(Err(e)) => Err(e)
    case None => Err(ParseError("expected the syntax statement first"))
  }

  /** The loop of `parse`. */
  function PItems(ts: seq<Token>, names: seq<string>, messages: seq<Message>, services: seq<Service>): (r: Result<ParseTree, ParseError>)
    ensures r.Ok? ==> r.value.enums == [] && messages <= r.value.messages && services <= r.value.services
    decreases |ts|
  {
    match PNext(ts, names)
    case None =>
      var tree := ParseTree(messages, [], services, names);
      (match Validate(tree)
       case Err(e) => Err(e)
       case Ok(_) => Ok(tree))
    case Some(Err(e)) => Err(e)
    case Some(Ok(p)) =>
      match p.value
      case ServiceItem(s) => PItems(p.rest, p.names, messages, services + [s])
      case MessageItem(m) => PItems(p.rest, p.names, messages + [m], services)
      case _ => Err(ParseError("unexpected top-level item"))
  }

  /** The source text through the tokenizer and the parser, from an empty interner. */
  function ParseText(s: seq<char>): Result<ParseTree, ParseError> {
    PParse(Lex(s), [])
  }
}
