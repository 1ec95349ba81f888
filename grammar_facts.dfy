/**
 * What the grammar of src/parser.rs guarantees about what it builds: field
 * syntax and field types, well-formed trees (which the lowering relies on),
 * an interner that only grows, and source order of the items kept.
 */
module GrammarFacts {
  import opened Wrappers
  import opened Intern
  import opened Ast
  import opened Lexer
  import opened Grammar

  /** The significant tokens of a field after its type: name, `=`, a u32 number, `;`. */
  predicate FieldShape(sig: seq<Token>) {
    && |sig| >= 4
    && sig[0].Ident? && sig[1] == Equals && sig[2].Number? && ParseU32(sig[2].text).Some? && sig[3] == Semicolon
  }

  /** A field parses exactly when its significant tokens have the field shape, and it takes those four. */
  lemma FieldSyntax(ts: seq<Token>, names: seq<string>, typeName: string)
    ensures PField(ts, names, typeName).Ok? <==> FieldShape(Significant(ts))
    ensures PField(ts, names, typeName).Ok? ==>
      var p := PField(ts, names, typeName).value;
      Significant(p.rest) == Significant(ts)[4..] && p.value.idx == ParseU32(Significant(ts)[2].text).value
  {
    var sig := Significant(ts);
    var (names1, ftype) := FieldTypeOf(names, typeName);
    var (t1, ts1) := NextSig(ts);
    SigStep(ts);
    if !(t1.Some? && t1.value.Ident?) { return; }
    var (names2, name) := Interned(names1, t1.value.text);
    assert PField(ts, names, typeName) == PFieldIndex(ts1, names2, name, ftype);
    FieldIndexSyntax(ts1, names2, name, ftype);
    if PField(ts, names, typeName).Ok? {
      assert sig[1..][3..] == sig[4..];
    }
  }

  lemma FieldIndexSyntax(ts: seq<Token>, names: seq<string>, name: StringId, ftype: FieldType)
    ensures var sig := Significant(ts);
      PFieldIndex(ts, names, name, ftype).Ok? <==>
        (|sig| >= 3 && sig[0] == Equals && sig[1].Number? && ParseU32(sig[1].text).Some? && sig[2] == Semicolon)
    ensures PFieldIndex(ts, names, name, ftype).Ok? ==>
      var p := PFieldIndex(ts, names, name, ftype).value;
      && Significant(p.rest) == Significant(ts)[3..] && p.names == names
      && p.value == Field(name, ParseU32(Significant(ts)[1].text).value, ftype, false)
  {
    var sig := Significant(ts);
    var (t2, ts2) := NextSig(ts);
    SigStep(ts);
    if t2 != Some(Equals) { return; }
    var (t3, ts3) := NextSig(ts2);
    SigStep(ts2);
    assert Significant(ts2) == sig[1..];
    if !(t3.Some? && t3.value.Number? && ParseU32(t3.value.text).Some?) { return; }
    var (t4, ts4) := NextSig(ts3);
    SigStep(ts3);
    assert Significant(ts3) == sig[2..];
  }

  /**
   * `parse_field_of_type`: the five scalar names give scalar types and any
   * other type name a message reference to that interned name; the field's
   * name is the identifier read; the field is not optional.
   */
  lemma FieldValue(ts: seq<Token>, names: seq<string>, typeName: string)
    requires PField(ts, names, typeName).Ok?
    ensures var p := PField(ts, names, typeName).value;
      && Grows(names, p.names)
      && FieldShape(Significant(ts))
      && p.value.name < |p.names| && p.names[p.value.name] == Significant(ts)[0].text
      && !p.value.optional
      && (ScalarType(typeName).Some? ==> p.value.ftype == ScalarType(typeName).value)
      && (ScalarType(typeName).None? ==>
            p.value.ftype.MessageRef? && p.value.ftype.id < |p.names| && p.names[p.value.ftype.id] == typeName)
  {
    FieldSyntax(ts, names, typeName);
    SigStep(ts);
    var (names1, ftype) := FieldTypeOf(names, typeName);
    var (t1, ts1) := NextSig(ts);
    var (names2, name) := Interned(names1, t1.value.text);
    assert PField(ts, names, typeName) == PFieldIndex(ts1, names2, name, ftype);
    FieldIndexSyntax(ts1, names2, name, ftype);
    InternGrows(names1, t1.value.text);
    GrowsTrans(names, names1, names2);
  }

  /** The field's resulting type is never `Undef` nor an enum, and its ids resolve. */
  lemma FieldOk(ts: seq<Token>, names: seq<string>, typeName: string)
    requires PField(ts, names, typeName).Ok?
    ensures var p := PField(ts, names, typeName).value;
      p.value.name < |p.names| && FieldTypeOk(p.value.ftype, |p.names|) && !p.value.ftype.EnumRef?
  {
    FieldValue(ts, names, typeName);
  }

  /**
   * A message parsed is well formed against the interner after it, holds no
   * enums, and is named by the identifier after `message`.
   */
  lemma {:induction false} MessageValue(ts: seq<Token>, names: seq<string>)
    requires PMessage(ts, names).Ok?
    ensures var p := PMessage(ts, names).value;
      Grows(names, p.names) && MessageOk(p.value, |p.names|) && EnumFree(p.value)
    ensures var p := PMessage(ts, names).value; var sig := Significant(ts);
      && |sig| >= 2 && sig[0].Ident? && sig[1] == BraceOpen
      && p.value.name < |p.names| && p.names[p.value.name] == sig[0].text
    decreases |ts|, 1
  {
    var sig := Significant(ts);
    var (t1, ts1) := NextSig(ts);
    SigStep(ts);
    var (names1, name) := Interned(names, t1.value.text);
    InternGrows(names, t1.value.text);
    var (t2, ts2) := NextSig(ts1);
    SigStep(ts1);
    MessageBodyValue(ts2, names1, Message(name, [], [], []));
    var r := PMessage(ts, names).value;
    assert r.names[name] == names1[name];
  }

  lemma AddFieldOk(acc: Message, f: Field, n: nat, n': nat)
    requires MessageOk(acc, n) && EnumFree(acc) && n <= n'
    requires f.name < n' && FieldTypeOk(f.ftype, n') && !f.ftype.EnumRef?
    ensures MessageOk(acc.(fields := acc.fields + [f]), n') && EnumFree(acc.(fields := acc.fields + [f]))
  {
    MessageOkMonotone(acc, n, n');
  }

  /** A parsed field, optional or not, keeps the message it is added to well formed. */
  lemma AddParsedField(ts: seq<Token>, names: seq<string>, typeName: string, acc: Message, optional: bool)
    requires PField(ts, names, typeName).Ok?
    requires MessageOk(acc, |names|) && EnumFree(acc)
    ensures var p := PField(ts, names, typeName).value; var acc' := acc.(fields := acc.fields + [p.value.(optional := optional)]);
      Grows(names, p.names) && !p.value.optional && MessageOk(acc', |p.names|) && EnumFree(acc')
  {
    var p := PField(ts, names, typeName).value;
    FieldValue(ts, names, typeName);
    FieldOk(ts, names, typeName);
    AddFieldOk(acc, p.value.(optional := optional), |names|, |p.names|);
  }

  lemma AddMessageOk(acc: Message, m: Message, n: nat, n': nat)
    requires MessageOk(acc, n) && EnumFree(acc) && n <= n'
    requires MessageOk(m, n') && EnumFree(m)
    ensures MessageOk(acc.(messages := acc.messages + [m]), n') && EnumFree(acc.(messages := acc.messages + [m]))
  {
    MessageOkMonotone(acc, n, n');
  }

  /** A field type read from the type name `typeName`: the scalar it names, or a reference to that interned name. */
  predicate TypeFrom(ft: FieldType, typeName: string, names: seq<string>) {
    && (ScalarType(typeName).Some? ==> ft == ScalarType(typeName).value)
    && (ScalarType(typeName).None? ==> ft.MessageRef? && ft.id < |names| && names[ft.id] == typeName)
  }

  /**
   * The field read from the type name `typeName` and the significant tokens
   * `sig` after it (name, `=`, number, `;`), optional exactly when `optional` says.
   */
  predicate FieldFrom(f: Field, typeName: string, sig: seq<Token>, names: seq<string>, optional: bool) {
    && FieldShape(sig)
    && f.name < |names| && names[f.name] == sig[0].text
    && f.idx == ParseU32(sig[2].text).value
    && TypeFrom(f.ftype, typeName, names)
    && f.optional == optional
  }

  lemma FieldFromGrows(f: Field, typeName: string, sig: seq<Token>, names: seq<string>, names': seq<string>, optional: bool)
    requires FieldFrom(f, typeName, sig, names, optional) && names <= names'
    ensures FieldFrom(f, typeName, sig, names', optional)
  {
    assert names'[f.name] == names[f.name];
    if f.ftype.MessageRef? {
      assert names'[f.ftype.id] == names[f.ftype.id];
    }
  }

  /** The field `parse_field_of_type` reads, as FieldFrom describes it. */
  lemma FieldFromTokens(ts: seq<Token>, names: seq<string>, typeName: string)
    requires PField(ts, names, typeName).Ok?
    ensures var p := PField(ts, names, typeName).value;
      Grows(names, p.names) && FieldFrom(p.value, typeName, Significant(ts), p.names, false)
  {
    FieldSyntax(ts, names, typeName);
    FieldValue(ts, names, typeName);
  }

  /**
   * The body loop of `parse_message` keeps what it has in front of what it
   * appends, and never touches the name or the enums.
   */
  lemma {:induction false} MessageBodyValue(ts: seq<Token>, names: seq<string>, acc: Message)
    requires PMessageBody(ts, names, acc).Ok?
    requires MessageOk(acc, |names|) && EnumFree(acc)
    ensures var p := PMessageBody(ts, names, acc).value;
      && Grows(names, p.names) && MessageOk(p.value, |p.names|) && EnumFree(p.value)
      && p.value.name == acc.name && p.value.enums == acc.enums
      && acc.fields <= p.value.fields && acc.messages <= p.value.messages
    decreases |ts|, 0
  {
    var (t, ts1) := NextSig(ts);
    var r := PMessageBody(ts, names, acc).value;
    if t == Some(BraceClose) {
    } else if t.value.text == "message" {
      var p := PMessage(ts1, names).value;
      var acc' := acc.(messages := acc.messages + [p.value]);
      assert PMessageBody(ts, names, acc) == PMessageBody(p.rest, p.names, acc');
      MessageValue(ts1, names);
      AddMessageOk(acc, p.value, |names|, |p.names|);
      MessageBodyValue(p.rest, p.names, acc');
      GrowsTrans(names, p.names, r.names);
    } else if t.value.text == "optional" {
      var (t2, ts2) := NextSig(ts1);
      var p := PField(ts2, names, t2.value.text).value;
      var acc' := acc.(fields := acc.fields + [p.value.(optional := true)]);
      assert PMessageBody(ts, names, acc) == PMessageBody(p.rest, p.names, acc');
      AddParsedField(ts2, names, t2.value.text, acc, true);
      MessageBodyValue(p.rest, p.names, acc');
      GrowsTrans(names, p.names, r.names);
    } else {
      var p := PField(ts1, names, t.value.text).value;
      var acc' := acc.(fields := acc.fields + [p.value]);
      assert PMessageBody(ts, names, acc) == PMessageBody(p.rest, p.names, acc');
      AddParsedField(ts1, names, t.value.text, acc, false);
      MessageBodyValue(p.rest, p.names, acc');
      GrowsTrans(names, p.names, r.names);
    }
  }

  /**
   * What one round of the body loop of `parse_message` appends, decided by the
   * first significant token: `}` ends the body; `message` puts the nested
   * message `parse_message` reads right after the messages so far; `optional`
   * puts the field read after the following type name right after the fields
   * so far, marked optional; any other identifier is the type name of the
   * next field, which is not optional. Together with MessageBodyValue for the
   * rounds after it, this is the source order of the body.
   */
  lemma MessageBodyItems(ts: seq<Token>, names: seq<string>, acc: Message)
    requires PMessageBody(ts, names, acc).Ok?
    requires MessageOk(acc, |names|) && EnumFree(acc)
    ensures var p := PMessageBody(ts, names, acc).value; var sig := Significant(ts);
      && sig != [] && (sig[0] == BraceClose || sig[0].Ident?)
      && (sig[0] == BraceClose ==> p.value == acc && p.names == names)
      && (sig[0] == Ident("message") ==>
            && |sig| >= 2 && sig[1].Ident? && PMessage(NextSig(ts).1, names).Ok?
            && |p.value.messages| > |acc.messages|
            && p.value.messages[|acc.messages|] == PMessage(NextSig(ts).1, names).value.value
            && p.value.messages[|acc.messages|].name < |p.names|
            && p.names[p.value.messages[|acc.messages|].name] == sig[1].text)
      && (sig[0] == Ident("optional") ==>
            && |p.value.fields| > |acc.fields| && |sig| >= 2 && sig[1].Ident?
            && FieldFrom(p.value.fields[|acc.fields|], sig[1].text, sig[2..], p.names, true))
      && (sig[0].Ident? && sig[0].text != "message" && sig[0].text != "optional" ==>
            && |p.value.fields| > |acc.fields|
            && FieldFrom(p.value.fields[|acc.fields|], sig[0].text, sig[1..], p.names, false))
  {
    var sig := Significant(ts);
    var (t, ts1) := NextSig(ts);
    SigStep(ts);
    var r := PMessageBody(ts, names, acc).value;
    if t == Some(BraceClose) {
    } else if t.value.text == "message" {
      var p := PMessage(ts1, names).value;
      var acc' := acc.(messages := acc.messages + [p.value]);
      assert PMessageBody(ts, names, acc) == PMessageBody(p.rest, p.names, acc');
      MessageValue(ts1, names);
      AddMessageOk(acc, p.value, |names|, |p.names|);
      MessageBodyValue(p.rest, p.names, acc');
      assert r.value.messages[|acc.messages|] == acc'.messages[|acc.messages|];
      assert r.names[p.value.name] == p.names[p.value.name];
    } else if t.value.text == "optional" {
      var (t2, ts2) := NextSig(ts1);
      SigStep(ts1);
      assert Significant(ts2) == sig[2..];
      var p := PField(ts2, names, t2.value.text).value;
      var f := p.value.(optional := true);
      var acc' := acc.(fields := acc.fields + [f]);
      assert PMessageBody(ts, names, acc) == PMessageBody(p.rest, p.names, acc');
      FieldFromTokens(ts2, names, t2.value.text);
      AddParsedField(ts2, names, t2.value.text, acc, true);
      MessageBodyValue(p.rest, p.names, acc');
      assert r.value.fields[|acc.fields|] == f;
      FieldFromGrows(f, t2.value.text, sig[2..], p.names, r.names, true);
    } else {
      var p := PField(ts1, names, t.value.text).value;
      var acc' := acc.(fields := acc.fields + [p.value]);
      assert PMessageBody(ts, names, acc) == PMessageBody(p.rest, p.names, acc');
      FieldFromTokens(ts1, names, t.value.text);
      AddParsedField(ts1, names, t.value.text, acc, false);
      MessageBodyValue(p.rest, p.names, acc');
      assert r.value.fields[|acc.fields|] == p.value;
      FieldFromGrows(p.value, t.value.text, sig[1..], p.names, r.names, false);
    }
  }

  /** The significant tokens of an rpc after `rpc`: `name ( arg ) returns ( ret ) ;`. */
  predicate RpcShape(sig: seq<Token>) {
    && |sig| >= 9
    && sig[0].Ident? && sig[1] == ParensOpen && sig[2].Ident? && sig[3] == ParensClose
    && sig[4] == Ident("returns") && sig[5] == ParensOpen && sig[6].Ident? && sig[7] == ParensClose
    && sig[8] == Semicolon
  }

  /** An rpc parses exactly when its significant tokens have the rpc shape, and it takes those nine. */
  lemma RpcSyntax(ts: seq<Token>, names: seq<string>)
    ensures PRpc(ts, names).Ok? <==> RpcShape(Significant(ts))
    ensures PRpc(ts, names).Ok? ==> Significant(PRpc(ts, names).value.rest) == Significant(ts)[9..]
  {
    var sig := Significant(ts);
    var (t1, ts1) := NextSig(ts);
    SigStep(ts);
    if !(t1.Some? && t1.value.Ident?) { return; }
    var (t2, ts2) := NextSig(ts1);
    SigStep(ts1);
    assert Significant(ts1) == sig[1..];
    if t2 != Some(ParensOpen) { return; }
    var (t3, ts3) := NextSig(ts2);
    SigStep(ts2);
    assert Significant(ts2) == sig[2..];
    if !(t3.Some? && t3.value.Ident?) { return; }
    var (t4, ts4) := NextSig(ts3);
    SigStep(ts3);
    assert Significant(ts3) == sig[3..];
    if t4 != Some(ParensClose) { return; }
    assert Significant(ts4) == sig[4..];
    var (names1, name) := Interned(names, t1.value.text);
    var (names2, arg) := Interned(names1, t3.value.text);
    assert PRpc(ts, names) == PRpcReturns(ts4, names2, name, arg);
    RpcReturnsSyntax(ts4, names2, name, arg);
    if PRpc(ts, names).Ok? {
      assert sig[4..][5..] == sig[9..];
    }
  }

  lemma RpcReturnsSyntax(ts: seq<Token>, names: seq<string>, name: StringId, arg: StringId)
    ensures var sig := Significant(ts);
      PRpcReturns(ts, names, name, arg).Ok? <==>
        (|sig| >= 5 && sig[0] == Ident("returns") && sig[1] == ParensOpen && sig[2].Ident? && sig[3] == ParensClose && sig[4] == Semicolon)
    ensures PRpcReturns(ts, names, name, arg).Ok? ==>
      Significant(PRpcReturns(ts, names, name, arg).value.rest) == Significant(ts)[5..]
  {
    var sig := Significant(ts);
    var (t5, ts5) := NextSig(ts);
    SigStep(ts);
    if t5 != Some(Ident("returns")) { return; }
    var (t6, ts6) := NextSig(ts5);
    SigStep(ts5);
    assert Significant(ts5) == sig[1..];
    if t6 != Some(ParensOpen) { return; }
    var (t7, ts7) := NextSig(ts6);
    SigStep(ts6);
    assert Significant(ts6) == sig[2..];
    if !(t7.Some? && t7.value.Ident?) { return; }
    var (t8, ts8) := NextSig(ts7);
    SigStep(ts7);
    assert Significant(ts7) == sig[3..];
    if t8 != Some(ParensClose) { return; }
    var (t9, ts9) := NextSig(ts8);
    SigStep(ts8);
    assert Significant(ts8) == sig[4..];
  }

  /** An rpc's name, argument and return type are its three identifiers, interned in that order. */
  lemma RpcValue(ts: seq<Token>, names: seq<string>)
    requires PRpc(ts, names).Ok?
    ensures var p := PRpc(ts, names).value;
      && Grows(names, p.names)
      && RpcShape(Significant(ts))
      && p.value.name < |p.names| && p.names[p.value.name] == Significant(ts)[0].text
      && p.value.argType < |p.names| && p.names[p.value.argType] == Significant(ts)[2].text
      && p.value.retType < |p.names| && p.names[p.value.retType] == Significant(ts)[6].text
  {
    RpcSyntax(ts, names);
    var sig := Significant(ts);
    var (t1, ts1) := NextSig(ts);
    SigStep(ts);
    var (t2, ts2) := NextSig(ts1);
    SigStep(ts1);
    var (t3, ts3) := NextSig(ts2);
    SigStep(ts2);
    assert Significant(ts2) == sig[2..];
    var (t4, ts4) := NextSig(ts3);
    SigStep(ts3);
    assert Significant(ts4) == sig[4..];
    var (names1, name) := Interned(names, t1.value.text);
    InternGrows(names, t1.value.text);
    var (names2, arg) := Interned(names1, t3.value.text);
    InternGrows(names1, t3.value.text);
    RpcReturnsValue(ts4, names2, name, arg);
    GrowsTrans(names, names1, names2);
  }

  lemma RpcReturnsValue(ts: seq<Token>, names: seq<string>, name: StringId, arg: StringId)
    requires PRpcReturns(ts, names, name, arg).Ok?
    ensures var p := PRpcReturns(ts, names, name, arg).value;
      && Grows(names, p.names) && p.value.name == name && p.value.argType == arg
      && |Significant(ts)| >= 3 && Significant(ts)[2].Ident?
      && p.value.retType < |p.names| && p.names[p.value.retType] == Significant(ts)[2].text
  {
    RpcReturnsSyntax(ts, names, name, arg);
    var sig := Significant(ts);
    var (t5, ts5) := NextSig(ts);
    SigStep(ts);
    var (t6, ts6) := NextSig(ts5);
    SigStep(ts5);
    var (t7, ts7) := NextSig(ts6);
    SigStep(ts6);
    assert Significant(ts6) == sig[2..];
    InternGrows(names, t7.value.text);
  }

  /** The body loop of `parse_service` keeps the rpcs it has in front of those it appends. */
  lemma {:induction false} ServiceBodyValue(ts: seq<Token>, names: seq<string>, acc: Service)
    requires PServiceBody(ts, names, acc).Ok?
    requires ServiceOk(acc, |names|)
    ensures var p := PServiceBody(ts, names, acc).value;
      Grows(names, p.names) && ServiceOk(p.value, |p.names|) && p.value.name == acc.name && acc.rpcs <= p.value.rpcs
    decreases |ts|
  {
    var (t, ts1) := NextSig(ts);
    if t == Some(Ident("rpc")) {
      RpcValue(ts1, names);
      var p := PRpc(ts1, names).value;
      var acc' := acc.(rpcs := acc.rpcs + [p.value]);
      assert ServiceOk(acc', |p.names|);
      ServiceBodyValue(p.rest, p.names, acc');
      GrowsTrans(names, p.names, PServiceBody(ts, names, acc).value.names);
    }
  }

  /** The rpc read from the significant tokens `sig` after `rpc`: its three identifiers, interned. */
  predicate RpcFrom(r: Rpc, sig: seq<Token>, names: seq<string>) {
    && RpcShape(sig)
    && r.name < |names| && names[r.name] == sig[0].text
    && r.argType < |names| && names[r.argType] == sig[2].text
    && r.retType < |names| && names[r.retType] == sig[6].text
  }

  /**
   * What one round of the body loop of `parse_service` does, decided by the
   * first significant token: `}` ends the body, and `rpc` puts the rpc read
   * after it right after the rpcs so far. Nothing else is accepted.
   */
  lemma ServiceBodyItems(ts: seq<Token>, names: seq<string>, acc: Service)
    requires PServiceBody(ts, names, acc).Ok?
    requires ServiceOk(acc, |names|)
    ensures var p := PServiceBody(ts, names, acc).value; var sig := Significant(ts);
      && sig != [] && (sig[0] == BraceClose || sig[0] == Ident("rpc"))
      && (sig[0] == BraceClose ==> p.value == acc && p.names == names)
      && (sig[0] == Ident("rpc") ==>
            && |p.value.rpcs| > |acc.rpcs|
            && RpcFrom(p.value.rpcs[|acc.rpcs|], sig[1..], p.names))
  {
    var sig := Significant(ts);
    var (t, ts1) := NextSig(ts);
    SigStep(ts);
    var r := PServiceBody(ts, names, acc).value;
    if t == Some(Ident("rpc")) {
      RpcValue(ts1, names);
      var p := PRpc(ts1, names).value;
      var acc' := acc.(rpcs := acc.rpcs + [p.value]);
      assert ServiceOk(acc', |p.names|);
      ServiceBodyValue(p.rest, p.names, acc');
      var x := r.value.rpcs[|acc.rpcs|];
      assert x == p.value;
      assert r.names[x.name] == p.names[x.name];
      assert r.names[x.argType] == p.names[x.argType];
      assert r.names[x.retType] == p.names[x.retType];
    }
  }

  /** A service parsed is well formed against the interner after it, and is named by the identifier after `service`. */
  lemma ServiceValue(ts: seq<Token>, names: seq<string>)
    requires PService(ts, names).Ok?
    ensures var p := PService(ts, names).value;
      Grows(names, p.names) && ServiceOk(p.value.service, |p.names|)
    ensures var p := PService(ts, names).value; var sig := Significant(ts);
      && |sig| >= 2 && sig[0].Ident? && sig[1] == BraceOpen
      && p.value.service.name < |p.names| && p.names[p.value.service.name] == sig[0].text
  {
    var sig := Significant(ts);
    var (t1, ts1) := NextSig(ts);
    SigStep(ts);
    var (names1, name) := Interned(names, t1.value.text);
    InternGrows(names, t1.value.text);
    var (t2, ts2) := NextSig(ts1);
    SigStep(ts1);
    ServiceBodyValue(ts2, names1, Service(name, []));
    var r := PService(ts, names).value;
    assert r.names[name] == names1[name];
  }

  /** The tokens after the opening quote of a syntax statement: `parse_syntax` reads them without skipping anything. */
  function AfterQuote(ts: seq<Token>): seq<Token> {
    NextSig(NextSig(ts).1).1
  }

  /**
   * A syntax statement parses exactly when its significant tokens start with
   * `=` and `"`, the very next token (trivia included) is `proto3`, and the
   * significant tokens after it are `"` and `;`. A space or comment between
   * the opening quote and `proto3` is rejected; the statement takes
   * everything up to the `;`.
   */
  lemma SyntaxSyntax(ts: seq<Token>, names: seq<string>)
    ensures PSyntax(ts, names).Ok? <==>
      var sig := Significant(ts); var q := AfterQuote(ts);
      && |sig| >= 2 && sig[0] == Equals && sig[1] == Quote
      && q != [] && q[0] == Ident("proto3")
      && |Significant(q[1..])| >= 2 && Significant(q[1..])[0] == Quote && Significant(q[1..])[1] == Semicolon
    ensures AfterQuote(ts) != [] && IsTrivia(AfterQuote(ts)[0]) ==> PSyntax(ts, names).Err?
    ensures PSyntax(ts, names).Ok? ==>
      Significant(PSyntax(ts, names).value.rest) == Significant(AfterQuote(ts)[1..])[2..]
  {
    var sig := Significant(ts);
    var (t1, ts1) := NextSig(ts);
    SigStep(ts);
    if t1 != Some(Equals) { return; }
    var (t2, ts2) := NextSig(ts1);
    SigStep(ts1);
    assert Significant(ts1) == sig[1..];
    if t2 != Some(Quote) { return; }
    var (t3, ts3) := NextRaw(ts2);
    if t3 != Some(Ident("proto3")) { return; }
    var sig3 := Significant(ts3);
    var (t4, ts4) := NextSig(ts3);
    SigStep(ts3);
    if t4 != Some(Quote) { return; }
    var (t5, ts5) := NextSig(ts4);
    SigStep(ts4);
    assert Significant(ts4) == sig3[1..];
  }

  /** Every item `next_parse` returns is well formed against the interner after it. */
  lemma NextValue(ts: seq<Token>, names: seq<string>)
    requires PNext(ts, names).Some? && PNext(ts, names).value.Ok?
    ensures var p := PNext(ts, names).value.value;
      && Grows(names, p.names)
      && (p.value.ServiceItem? ==> ServiceOk(p.value.service, |p.names|))
      && (p.value.MessageItem? ==> MessageOk(p.value.message, |p.names|) && EnumFree(p.value.message))
      && !p.value.PackageItem?
  {
    var (t, ts1) := NextSig(ts);
    if t == Some(Ident("service")) {
      ServiceValue(ts1, names);
    } else if t == Some(Ident("message")) {
      MessageValue(ts1, names);
    }
  }

  /** The shape every parse of a file has: well formed, no enums, the interner's copy inside. */
  ghost predicate WellParsed(names: seq<string>, t: ParseTree) {
    && Grows(names, t.intern)
    && TreeOk(t)
    && t.enums == []
    && (forall m :: m in t.messages ==> EnumFree(m))
  }

  /** The loop of `parse` keeps the services and messages it has in front of those it appends. */
  lemma {:induction false} ItemsValue(ts: seq<Token>, names: seq<string>, messages: seq<Message>, services: seq<Service>)
    requires PItems(ts, names, messages, services).Ok?
    requires forall m :: m in messages ==> MessageOk(m, |names|) && EnumFree(m)
    requires forall s :: s in services ==> ServiceOk(s, |names|)
    ensures var t := PItems(ts, names, messages, services).value;
      WellParsed(names, t) && messages <= t.messages && services <= t.services
    decreases |ts|
  {
    var r := PNext(ts, names);
    if r.Some? {
      var p := r.value.value;
      NextValue(ts, names);
      forall m | m in messages ensures MessageOk(m, |p.names|) {
        MessageOkMonotone(m, |names|, |p.names|);
      }
      var t := PItems(ts, names, messages, services).value;
      if p.value.ServiceItem? {
        ItemsValue(p.rest, p.names, messages, services + [p.value.service]);
      } else {
        ItemsValue(p.rest, p.names, messages + [p.value.message], services);
      }
      GrowsTrans(names, p.names, t.intern);
    }
  }

  /**
   * What one round of the loop of `parse` does, decided by the first
   * significant token: once only trivia is left the tree holds what was
   * collected and the interner; `service` puts the service read after it
   * right after the services so far, and `message` the message read after
   * it right after the messages so far. Nothing else is accepted.
   */
  lemma ItemsNext(ts: seq<Token>, names: seq<string>, messages: seq<Message>, services: seq<Service>)
    requires PItems(ts, names, messages, services).Ok?
    requires forall m :: m in messages ==> MessageOk(m, |names|) && EnumFree(m)
    requires forall s :: s in services ==> ServiceOk(s, |names|)
    ensures var t := PItems(ts, names, messages, services).value; var sig := Significant(ts);
      && (sig == [] ==> t == ParseTree(messages, [], services, names))
      && (sig != [] ==> sig[0] == Ident("service") || sig[0] == Ident("message"))
      && (sig != [] && sig[0] == Ident("service") ==>
            && PService(NextSig(ts).1, names).Ok? && |sig| >= 2 && sig[1].Ident?
            && |t.services| > |services|
            && t.services[|services|] == PService(NextSig(ts).1, names).value.value.service
            && t.services[|services|].name < |t.intern| && t.intern[t.services[|services|].name] == sig[1].text)
      && (sig != [] && sig[0] == Ident("message") ==>
            && PMessage(NextSig(ts).1, names).Ok? && |sig| >= 2 && sig[1].Ident?
            && |t.messages| > |messages|
            && t.messages[|messages|] == PMessage(NextSig(ts).1, names).value.value
            && t.messages[|messages|].name < |t.intern| && t.intern[t.messages[|messages|].name] == sig[1].text)
  {
    var (tok, ts1) := NextSig(ts);
    SigStep(ts);
    if tok == Some(Ident("service")) {
      ItemsNextService(ts, names, messages, services);
    } else if tok == Some(Ident("message")) {
      ItemsNextMessage(ts, names, messages, services);
    }
  }

  /** The items after the first one still resolve against the interner that item left. */
  lemma ItemsAfterNext(ts: seq<Token>, names: seq<string>, messages: seq<Message>, services: seq<Service>)
    requires PNext(ts, names).Some? && PNext(ts, names).value.Ok?
    requires forall m :: m in messages ==> MessageOk(m, |names|) && EnumFree(m)
    requires forall s :: s in services ==> ServiceOk(s, |names|)
    ensures var p := PNext(ts, names).value.value;
      && Grows(names, p.names)
      && (forall m :: m in messages ==> MessageOk(m, |p.names|) && EnumFree(m))
      && (forall s :: s in services ==> ServiceOk(s, |p.names|))
  {
    var p := PNext(ts, names).value.value;
    NextValue(ts, names);
    forall m | m in messages ensures MessageOk(m, |p.names|) {
      MessageOkMonotone(m, |names|, |p.names|);
    }
  }

  lemma ItemsNextService(ts: seq<Token>, names: seq<string>, messages: seq<Message>, services: seq<Service>)
    requires PItems(ts, names, messages, services).Ok? && NextSig(ts).0 == Some(Ident("service"))
    requires forall m :: m in messages ==> MessageOk(m, |names|) && EnumFree(m)
    requires forall s :: s in services ==> ServiceOk(s, |names|)
    ensures var t := PItems(ts, names, messages, services).value; var sig := Significant(ts);
      && PService(NextSig(ts).1, names).Ok? && |sig| >= 2 && sig[1].Ident?
      && |t.services| > |services|
      && t.services[|services|] == PService(NextSig(ts).1, names).value.value.service
      && t.services[|services|].name < |t.intern| && t.intern[t.services[|services|].name] == sig[1].text
  {
    var ts1 := NextSig(ts).1;
    SigStep(ts);
    var p := PNext(ts, names).value.value;
    var t := PItems(ts, names, messages, services).value;
    ItemsAfterNext(ts, names, messages, services);
    ServiceValue(ts1, names);
    ItemsValue(p.rest, p.names, messages, services + [p.value.service]);
    assert t.services[|services|] == p.value.service;
    assert t.intern[p.value.service.name] == p.names[p.value.service.name];
  }

  lemma ItemsNextMessage(ts: seq<Token>, names: seq<string>, messages: seq<Message>, services: seq<Service>)
    requires PItems(ts, names, messages, services).Ok? && NextSig(ts).0 == Some(Ident("message"))
    requires forall m :: m in messages ==> MessageOk(m, |names|) && EnumFree(m)
    requires forall s :: s in services ==> ServiceOk(s, |names|)
    ensures var t := PItems(ts, names, messages, services).value; var sig := Significant(ts);
      && PMessage(NextSig(ts).1, names).Ok? && |sig| >= 2 && sig[1].Ident?
      && |t.messages| > |messages|
      && t.messages[|messages|] == PMessage(NextSig(ts).1, names).value.value
      && t.messages[|messages|].name < |t.intern| && t.intern[t.messages[|messages|].name] == sig[1].text
  {
    var ts1 := NextSig(ts).1;
    SigStep(ts);
    var p := PNext(ts, names).value.value;
    var t := PItems(ts, names, messages, services).value;
    ItemsAfterNext(ts, names, messages, services);
    MessageValue(ts1, names);
    ItemsValue(p.rest, p.names, messages + [p.value.message], services);
    assert t.messages[|messages|] == p.value.message;
    assert t.intern[p.value.message.name] == p.names[p.value.message.name];
  }

  /**
   * Whatever `parse` returns starts with the syntax statement, which
   * `next_parse` reads first, and meets what the lowering demands: every id
   * resolves in the interner copied into the tree, no type is `Undef`, and
   * there are no enums.
   */
  lemma ParseValue(ts: seq<Token>, names: seq<string>)
    requires PParse(ts, names).Ok?
    ensures Significant(ts) != [] && Significant(ts)[0] == Ident("syntax")
    ensures PNext(ts, names).Some? && PNext(ts, names).value.Ok? && PNext(ts, names).value.value.value == SyntaxStatement
    ensures WellParsed(names, PParse(ts, names).value)
  {
    SigStep(ts);
    var p := PNext(ts, names).value.value;
    ItemsValue(p.rest, p.names, [], []);
  }

  /** Parsing source text from an empty interner yields a well-formed tree and a true set of names. */
  lemma ParseTextValue(s: seq<char>)
    requires ParseText(s).Ok?
    ensures WellParsed([], ParseText(s).value)
    ensures Unique(ParseText(s).value.intern)
  {
    ParseValue(Lex(s), []);
  }
}
