/**
 * The parser tests of src/parser.rs, stated on the grammar that the methods
 * of `Parser.Parser` are proved to follow: the text is tokenized, then
 * `next_parse` reads one top-level item and a second call finds nothing left.
 */
module ParserExamples {
  import opened Wrappers
  import opened Intern
  import opened Ast
  import opened Lexer
  import opened Grammar
  import opened LexerExamples
  import opened LexSyntax
  import opened LexService
  import opened LexMessage

  /** The syntax statement read from its tokens. */
  lemma SyntaxParse(ts: seq<Token>)
    requires SyntaxStream(ts)
    ensures PNext(ts, []) == Some(Ok(Parsed(SyntaxStatement, [], [])))
  {
    assert NextSig(ts) == (Some(Ident("syntax")), ts[1..]);
    assert NextSig(ts[1..]) == (Some(Equals), ts[3..]);
    assert NextSig(ts[3..]) == (Some(Quote), ts[5..]);
    assert NextRaw(ts[5..]) == (Some(Ident("proto3")), ts[6..]);
    assert NextSig(ts[6..]) == (Some(Quote), ts[7..]);
    assert NextSig(ts[7..]) == (Some(Semicolon), []);
  }

  /** `solo_syntax_test`: the statement is one item, and nothing follows it. */
  lemma SoloSyntax()
    ensures var r := PNext(Lex(SyntaxSource), []);
      && r == Some(Ok(Parsed(SyntaxStatement, [], [])))
      && PNext(r.value.value.rest, r.value.value.names).None?
  {
    SyntaxLexes(SyntaxSource);
    SyntaxParse(Lex(SyntaxSource));
  }

  /** The four names of `solo_service_test`, each new when it is met. */
  lemma ServiceNames()
    ensures Interned([], "hi") == (["hi"], 0)
    ensures Interned(["hi"], "do") == (["hi", "do"], 1)
    ensures Interned(["hi", "do"], "something") == (["hi", "do", "something"], 2)
    ensures Interned(["hi", "do", "something"], "null") == (["hi", "do", "something", "null"], 3)
  {
    assert IndexOf([], "hi") == None && [] + ["hi"] == ["hi"];
    assert "do" !in ["hi"] by { assert "do"[0] != "hi"[0]; }
    assert "something" !in ["hi", "do"] by { assert |"something"| != |"hi"| && |"something"| != |"do"|; }
    assert "null" !in ["hi", "do", "something"] by {
      assert |"null"| != |"hi"| && |"null"| != |"something"| && "null"[0] != "do"[0];
    }
    assert ["hi"] + ["do"] == ["hi", "do"];
    assert ["hi", "do"] + ["something"] == ["hi", "do", "something"];
    assert ["hi", "do", "something"] + ["null"] == ["hi", "do", "something", "null"];
  }

  /** The return half of the rpc of `solo_service_test`. */
  lemma ServiceReturnsParse(ts: seq<Token>)
    requires ServiceStream(ts)
    ensures PRpcReturns(ts[12..], ["hi", "do", "something"], 1, 2)
      == Ok(Parsed(Rpc(1, 2, 3), ts[19..], ["hi", "do", "something", "null"]))
  {
    assert NextSig(ts[12..]) == (Some(Ident("returns")), ts[14..]);
    assert NextSig(ts[14..]) == (Some(ParensOpen), ts[16..]);
    assert NextSig(ts[16..]) == (Some(Ident("null")), ts[17..]);
    ServiceNames();
    assert NextSig(ts[17..]) == (Some(ParensClose), ts[18..]);
    assert NextSig(ts[18..]) == (Some(Semicolon), ts[19..]);
  }

  /** The rpc of `solo_service_test`: three new names after the service's. */
  lemma ServiceRpcParse(ts: seq<Token>)
    requires ServiceStream(ts)
    ensures PRpc(ts[7..], ["hi"]) == Ok(Parsed(Rpc(1, 2, 3), ts[19..], ["hi", "do", "something", "null"]))
  {
    assert NextSig(ts[7..]) == (Some(Ident("do")), ts[9..]);
    ServiceNames();
    assert NextSig(ts[9..]) == (Some(ParensOpen), ts[10..]);
    assert NextSig(ts[10..]) == (Some(Ident("something")), ts[11..]);
    assert NextSig(ts[11..]) == (Some(ParensClose), ts[12..]);
    ServiceReturnsParse(ts);
  }

  /** The body of the service of `solo_service_test`: one rpc, then the closing brace. */
  lemma ServiceBodyParse(ts: seq<Token>)
    requires ServiceStream(ts)
    ensures PServiceBody(ts[5..], ["hi"], Service(0, []))
      == Ok(Parsed(Service(0, [Rpc(1, 2, 3)]), [], ["hi", "do", "something", "null"]))
  {
    assert NextSig(ts[5..]) == (Some(Ident("rpc")), ts[7..]);
    ServiceRpcParse(ts);
    assert NextSig(ts[19..]) == (Some(BraceClose), []);
    assert Service(0, []).(rpcs := [] + [Rpc(1, 2, 3)]) == Service(0, [Rpc(1, 2, 3)]);
    assert PServiceBody(ts[19..], ["hi", "do", "something", "null"], Service(0, [Rpc(1, 2, 3)]))
      == Ok(Parsed(Service(0, [Rpc(1, 2, 3)]), [], ["hi", "do", "something", "null"]));
  }

  /** The service of `solo_service_test` after its keyword. */
  lemma ServiceItemParse(ts: seq<Token>)
    requires ServiceStream(ts)
    ensures PService(ts[1..], []) == Ok(Parsed(ServiceItem(Service(0, [Rpc(1, 2, 3)])), [], ["hi", "do", "something", "null"]))
  {
    assert NextSig(ts[1..]) == (Some(Ident("hi")), ts[3..]);
    ServiceNames();
    assert NextSig(ts[3..]) == (Some(BraceOpen), ts[5..]);
    ServiceBodyParse(ts);
  }

  /** `solo_service_test` from its tokens: the service and its one rpc, then nothing. */
  lemma ServiceParse(ts: seq<Token>)
    requires ServiceStream(ts)
    ensures PNext(ts, []) == Some(Ok(Parsed(ServiceItem(Service(0, [Rpc(1, 2, 3)])), [], ["hi", "do", "something", "null"])))
  {
    assert NextSig(ts) == (Some(Ident("service")), ts[1..]);
    ServiceItemParse(ts);
  }

  /** `solo_service_test`: the service and its one rpc, interned in order of appearance, then nothing. */
  lemma SoloService()
    ensures var r := PNext(Lex(ServiceSource), []);
      && r == Some(Ok(Parsed(ServiceItem(Service(0, [Rpc(1, 2, 3)])), [], ["hi", "do", "something", "null"])))
      && PNext(r.value.value.rest, r.value.value.names).None?
  {
    ServiceLexes(ServiceSource);
    ServiceParse(Lex(ServiceSource));
  }

  /** The tokens ` = d ;` at position `i`: each token after a space. */
  predicate FieldIndexTokens(ts: seq<Token>, i: nat, d: string) {
    && i + 5 <= |ts| && ts[i] == Whitespace && ts[i + 1] == Equals && ts[i + 2] == Whitespace
    && ts[i + 3] == Number(d) && ts[i + 4] == Semicolon
  }

  /** The tokens ` name = d ;` at position `i`. */
  predicate FieldTokens(ts: seq<Token>, i: nat, name: string, d: string) {
    i + 7 <= |ts| && ts[i] == Whitespace && ts[i + 1] == Ident(name) && FieldIndexTokens(ts, i + 2, d)
  }

  /** `= number ;` at position `i`: the field keeps its name, type and names. */
  lemma FieldIndexAt(ts: seq<Token>, i: nat, names: seq<string>, name: StringId, ftype: FieldType, d: string)
    requires FieldIndexTokens(ts, i, d) && ParseU32(d).Some?
    ensures PFieldIndex(ts[i..], names, name, ftype) == Ok(Parsed(Field(name, ParseU32(d).value, ftype, false), ts[i + 5..], names))
  {
    assert NextSig(ts[i..]) == (Some(Equals), ts[i + 2..]) by { assert ts[i..][1..] == ts[i + 1..]; }
    assert NextSig(ts[i + 2..]) == (Some(Number(d)), ts[i + 4..]) by { assert ts[i + 2..][1..] == ts[i + 3..]; }
    assert NextSig(ts[i + 4..]) == (Some(Semicolon), ts[i + 5..]);
  }

  /** ` name = number ;` at position `i` after the type name: a field of that type, its name interned. */
  lemma FieldAt(ts: seq<Token>, i: nat, names: seq<string>, typeName: string, fname: string, d: string)
    requires FieldTokens(ts, i, fname, d) && ParseU32(d).Some?
    ensures var (names1, ftype) := FieldTypeOf(names, typeName);
      var (names2, id) := Interned(names1, fname);
      PField(ts[i..], names, typeName) == Ok(Parsed(Field(id, ParseU32(d).value, ftype, false), ts[i + 7..], names2))
  {
    assert NextSig(ts[i..]) == (Some(Ident(fname)), ts[i + 2..]) by { assert ts[i..][1..] == ts[i + 1..]; }
    var (names1, ftype) := FieldTypeOf(names, typeName);
    var (names2, id) := Interned(names1, fname);
    FieldIndexAt(ts, i + 2, names2, id, ftype, d);
  }

  /** The type names of `solo_message_test`: two scalars and the nested message. */
  lemma FieldTypes(names: seq<string>)
    ensures FieldTypeOf(names, "string") == (names, String)
    ensures FieldTypeOf(names, "int32") == (names, Int32)
    ensures FieldTypeOf(names, "inner") == (Interned(names, "inner").0, MessageRef(Interned(names, "inner").1))
  {
    assert ScalarType("string") == Some(String);
    assert ScalarType("int32") == Some(Int32);
    assert ScalarType("inner") == None;
  }

  /** The field numbers of `solo_message_test`. */
  lemma FieldNumbers()
    ensures ParseU32("1") == Some(1) && ParseU32("2") == Some(2)
  {
    assert "1"[..0] == [] && "2"[..0] == [];
  }

  /** `optional string msg = 1;` after its `optional`: a string field numbered 1. */
  lemma MessageMsgField(ts: seq<Token>)
    requires MessageTokens1(ts)
    ensures PField(ts[9..], ["HiReq"], "string") == Ok(Parsed(Field(1, 1, String, false), ts[16..], ["HiReq", "msg"]))
  {
    FieldNumbers();
    assert "msg" !in ["HiReq"] by { assert |"msg"| != |"HiReq"|; }
    InternAbsent(["HiReq"], "msg");
    assert ["HiReq"] + ["msg"] == ["HiReq", "msg"];
    FieldTypes(["HiReq"]);
    FieldAt(ts, 9, ["HiReq"], "string", "msg", "1");
  }

  /** `int32 inner_field = 1;` after its type: the nested message's one field. */
  lemma MessageInnerField(ts: seq<Token>)
    requires MessageTokens3(ts)
    ensures PField(ts[24..], ["HiReq", "msg", "inner"], "int32")
      == Ok(Parsed(Field(3, 1, Int32, false), ts[31..], ["HiReq", "msg", "inner", "inner_field"]))
  {
    FieldNumbers();
    assert "inner_field" !in ["HiReq", "msg", "inner"] by {
      assert |"inner_field"| != |"HiReq"| && |"inner_field"| != |"msg"| && |"inner_field"| != |"inner"|;
    }
    InternAbsent(["HiReq", "msg", "inner"], "inner_field");
    assert ["HiReq", "msg", "inner"] + ["inner_field"] == ["HiReq", "msg", "inner", "inner_field"];
    FieldTypes(["HiReq", "msg", "inner"]);
    FieldAt(ts, 24, ["HiReq", "msg", "inner"], "int32", "inner_field", "1");
  }

  /** The body of the nested message: its one field, then the closing brace. */
  lemma MessageInnerBody(ts: seq<Token>)
    requires MessageTokens3(ts) && MessageTokens4(ts)
    ensures PMessageBody(ts[22..], ["HiReq", "msg", "inner"], Message(2, [], [], []))
      == Ok(Parsed(Message(2, [Field(3, 1, Int32, false)], [], []), ts[33..], ["HiReq", "msg", "inner", "inner_field"]))
  {
    assert NextSig(ts[22..]) == (Some(Ident("int32")), ts[24..]);
    MessageInnerField(ts);
    assert Message(2, [], [], []).(fields := [] + [Field(3, 1, Int32, false)]) == Message(2, [Field(3, 1, Int32, false)], [], []);
    assert NextSig(ts[31..]) == (Some(BraceClose), ts[33..]);
  }

  /** The nested `message inner { ... }` after its keyword. */
  lemma MessageInner(ts: seq<Token>)
    requires MessageTokens2(ts) && MessageTokens3(ts) && MessageTokens4(ts)
    ensures PMessage(ts[18..], ["HiReq", "msg"])
      == Ok(Parsed(Message(2, [Field(3, 1, Int32, false)], [], []), ts[33..], ["HiReq", "msg", "inner", "inner_field"]))
  {
    assert "inner" !in ["HiReq", "msg"] by { assert "inner"[0] != "HiReq"[0] && |"inner"| != |"msg"|; }
    InternAbsent(["HiReq", "msg"], "inner");
    assert ["HiReq", "msg"] + ["inner"] == ["HiReq", "msg", "inner"];
    assert NextSig(ts[18..]) == (Some(Ident("inner")), ts[20..]);
    assert NextSig(ts[20..]) == (Some(BraceOpen), ts[22..]);
    MessageInnerBody(ts);
  }

  /** `inner idx = 2;` after its type: a field of the nested message's type, numbered 2. */
  lemma MessageIdxField(ts: seq<Token>)
    requires MessageTokens5(ts)
    ensures PField(ts[35..], ["HiReq", "msg", "inner", "inner_field"], "inner")
      == Ok(Parsed(Field(4, 2, MessageRef(2), false), ts[42..], ["HiReq", "msg", "inner", "inner_field", "idx"]))
  {
    FieldNumbers();
    var names := ["HiReq", "msg", "inner", "inner_field"];
    assert Unique(names) by {
      assert |names[0]| == 5 && |names[1]| == 3 && |names[2]| == 5 && |names[3]| == 11 && names[0][0] != names[2][0];
    }
    InternPresent(names, "inner", 2);
    assert "idx" !in names by {
      assert |"idx"| != |"HiReq"| && "idx"[0] != "msg"[0] && |"idx"| != |"inner"| && |"idx"| != |"inner_field"|;
    }
    InternAbsent(names, "idx");
    assert names + ["idx"] == ["HiReq", "msg", "inner", "inner_field", "idx"];
    FieldTypes(names);
    FieldAt(ts, 35, names, "inner", "idx", "2");
  }

  /** What `solo_message_test` expects: a string field, a field of the nested type and the nested message. */
  function HiReq(): Message {
    Message(0, [Field(1, 1, String, true), Field(4, 2, MessageRef(2), false)], [Message(2, [Field(3, 1, Int32, false)], [], [])], [])
  }

  /** The body of `HiReq` from the field after the nested message on. */
  lemma MessageBodyLast(ts: seq<Token>)
    requires |ts| == 44 && MessageTokens5(ts) && MessageTokens6(ts)
    ensures PMessageBody(ts[33..], ["HiReq", "msg", "inner", "inner_field"],
        Message(0, [Field(1, 1, String, true)], [Message(2, [Field(3, 1, Int32, false)], [], [])], []))
      == Ok(Parsed(HiReq(), [], ["HiReq", "msg", "inner", "inner_field", "idx"]))
  {
    assert NextSig(ts[33..]) == (Some(Ident("inner")), ts[35..]);
    MessageIdxField(ts);
    assert [Field(1, 1, String, true)] + [Field(4, 2, MessageRef(2), false)]
      == [Field(1, 1, String, true), Field(4, 2, MessageRef(2), false)];
    assert NextSig(ts[42..]) == (Some(BraceClose), []);
  }

  /** The body of `HiReq` from the nested message on. */
  lemma MessageBodyInner(ts: seq<Token>)
    requires |ts| == 44 && MessageTokens2(ts) && MessageTokens3(ts) && MessageTokens4(ts) && MessageTokens5(ts)
      && MessageTokens6(ts)
    ensures PMessageBody(ts[16..], ["HiReq", "msg"], Message(0, [Field(1, 1, String, true)], [], []))
      == Ok(Parsed(HiReq(), [], ["HiReq", "msg", "inner", "inner_field", "idx"]))
  {
    assert NextSig(ts[16..]) == (Some(Ident("message")), ts[18..]);
    MessageInner(ts);
    assert [] + [Message(2, [Field(3, 1, Int32, false)], [], [])] == [Message(2, [Field(3, 1, Int32, false)], [], [])];
    MessageBodyLast(ts);
  }

  /** The body of `HiReq`, from its opening brace on. */
  lemma MessageBody(ts: seq<Token>)
    requires MessageStream(ts)
    ensures PMessageBody(ts[5..], ["HiReq"], Message(0, [], [], []))
      == Ok(Parsed(HiReq(), [], ["HiReq", "msg", "inner", "inner_field", "idx"]))
  {
    assert NextSig(ts[5..]) == (Some(Ident("optional")), ts[7..]);
    assert NextSig(ts[7..]) == (Some(Ident("string")), ts[9..]);
    MessageMsgField(ts);
    assert Field(1, 1, String, false).(optional := true) == Field(1, 1, String, true);
    assert [] + [Field(1, 1, String, true)] == [Field(1, 1, String, true)];
    MessageBodyInner(ts);
  }

  /** `solo_message_test` from its tokens: the message, then nothing. */
  lemma MessageParse(ts: seq<Token>)
    requires MessageStream(ts)
    ensures PNext(ts, []) == Some(Ok(Parsed(MessageItem(HiReq()), [], ["HiReq", "msg", "inner", "inner_field", "idx"])))
  {
    assert IndexOf([], "HiReq") == None && [] + ["HiReq"] == ["HiReq"];
    assert NextSig(ts) == (Some(Ident("message")), ts[1..]);
    assert NextSig(ts[1..]) == (Some(Ident("HiReq")), ts[3..]);
    assert NextSig(ts[3..]) == (Some(BraceOpen), ts[5..]);
    MessageBody(ts);
  }

  /**
   * `solo_message_test`: the message with its two fields and its nested
   * message, names interned in order of appearance, then nothing.
   */
  lemma SoloMessage()
    ensures var r := PNext(Lex(MessageSource), []);
      && r == Some(Ok(Parsed(MessageItem(HiReq()), [], ["HiReq", "msg", "inner", "inner_field", "idx"])))
      && PNext(r.value.value.rest, r.value.value.names).None?
  {
    MessageLexes(MessageSource);
    MessageParse(Lex(MessageSource));
  }
}
