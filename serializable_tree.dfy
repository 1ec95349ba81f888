/**
 * The lowering of src/serializable_tree.rs: a parse tree whose names are
 * interner ids becomes a `SerializeTree` whose names and field types are
 * plain text. `get_str(..).unwrap()` and `unimplemented!()` abort in the
 * source, so the lowering demands a tree on which neither happens
 * (`Ast.TreeOk`), which every tree the parser returns is.
 */
module Lowering {
  import opened Wrappers
  import opened Intern
  import A = Ast
  import G = Grammar

  datatype Field = Field(name: string, idx: A.u32, ftype: string, optional: bool)

  datatype EnumVariant = EnumVariant(name: string, id: A.u32)

  datatype Enum = Enum(name: string, variants: seq<EnumVariant>)

  datatype Message = Message(name: string, fields: seq<Field>, messages: seq<Message>, enums: seq<Enum>)

  datatype Rpc = Rpc(name: string, argType: string, retType: string)

  datatype Service = Service(name: string, rpcs: seq<Rpc>)

  datatype SerializeTree = SerializeTree(messages: seq<Message>, enums: seq<Enum>, services: seq<Service>)

  /** The names the scalar types lower to. */
  predicate IsScalarName(s: string) {
    s == "i32" || s == "i64" || s == "u32" || s == "u64" || s == "String"
  }

  /**
   * `field_type_to_rust_str`: a scalar type becomes its Rust name, a message
   * or enum reference the interned text of its id.
   */
  function FieldTypeToRustStr(intern: seq<string>, ft: A.FieldType): (r: string)
    requires A.FieldTypeOk(ft, |intern|)
    ensures IsScalarName(r) <==> !(ft.MessageRef? || ft.EnumRef?) || IsScalarName(intern[ft.id])
    ensures (ft.MessageRef? || ft.EnumRef?) ==> Lookup(intern, ft.id) == Some(r)
    ensures ft.Int32? ==> r == "i32"
    ensures ft.Int64? ==> r == "i64"
    ensures ft.Uint32? ==> r == "u32"
    ensures ft.Uint64? ==> r == "u64"
    ensures ft.String? ==> r == "String"
  {
    match ft
    case Int32 => "i32"
    case Int64 => "i64"
    case Uint32 => "u32"
    case Uint64 => "u64"
    case String => "String"
    case MessageRef(m) => intern[m]
    case EnumRef(e) => intern[e]
  }

  /** One field of `rollup_message`: its name looked up, its index and optionality copied. */
  function LowerField(t: A.ParseTree, f: A.Field): (r: Field)
    requires f.name < |t.intern| && A.FieldTypeOk(f.ftype, |t.intern|)
  {
    Field(A.TreeStr(t, f.name), f.idx, FieldTypeToRustStr(t.intern, f.ftype), f.optional)
  }

  /** `rollup_enum` as a function: the enum's name and each variant's name looked up, ids copied. */
  function LowerEnum(t: A.ParseTree, e: A.Enum): (r: Enum)
    requires A.EnumOk(e, |t.intern|)
  {
    Enum(A.TreeStr(t, e.name),
      seq(|e.variants|, i requires 0 <= i < |e.variants| =>
        EnumVariant(A.TreeStr(t, e.variants[i].name), e.variants[i].id)))
  }

  /** `rollup_message` as a function: fields, nested messages and nested enums lowered in place. */
  function LowerMessage(t: A.ParseTree, m: A.Message): (r: Message)
    requires A.MessageOk(m, |t.intern|)
    decreases m
  {
    Message(A.TreeStr(t, m.name),
      seq(|m.fields|, i requires 0 <= i < |m.fields| => LowerField(t, m.fields[i])),
      seq(|m.messages|, i requires 0 <= i < |m.messages| => LowerMessage(t, m.messages[i])),
      seq(|m.enums|, i requires 0 <= i < |m.enums| => LowerEnum(t, m.enums[i])))
  }

  function LowerRpc(t: A.ParseTree, r: A.Rpc): Rpc
    requires r.name < |t.intern| && r.argType < |t.intern| && r.retType < |t.intern|
  {
    Rpc(A.TreeStr(t, r.name), A.TreeStr(t, r.argType), A.TreeStr(t, r.retType))
  }

  function LowerService(t: A.ParseTree, s: A.Service): Service
    requires A.ServiceOk(s, |t.intern|)
  {
    Service(A.TreeStr(t, s.name), seq(|s.rpcs|, i requires 0 <= i < |s.rpcs| => LowerRpc(t, s.rpcs[i])))
  }

  /** `from_parse_tree` as a function. */
  function LowerTree(t: A.ParseTree): SerializeTree
    requires A.TreeOk(t)
  {
    SerializeTree(
      seq(|t.messages|, i requires 0 <= i < |t.messages| => LowerMessage(t, t.messages[i])),
      seq(|t.enums|, i requires 0 <= i < |t.enums| => LowerEnum(t, t.enums[i])),
      seq(|t.services|, i requires 0 <= i < |t.services| => LowerService(t, t.services[i])))
  }

  /** `SerializeTree::rollup_enum`. */
  method RollupEnum(tree: A.ParseTree, curEnum: A.Enum) returns (r: Enum)
    requires A.EnumOk(curEnum, |tree.intern|)
    ensures r == LowerEnum(tree, curEnum)
  {
    var variants: seq<EnumVariant> := [];
    for i := 0 to |curEnum.variants|
      invariant |variants| == i
      invariant forall k :: 0 <= k < i ==>
        variants[k] == EnumVariant(A.TreeStr(tree, curEnum.variants[k].name), curEnum.variants[k].id)
    {
      var v := curEnum.variants[i];
      variants := variants + [EnumVariant(A.TreeStr(tree, v.name), v.id)];
    }
    r := Enum(A.TreeStr(tree, curEnum.name), variants);
  }

  /** `SerializeTree::rollup_message`, recursing into nested messages. */
  method RollupMessage(tree: A.ParseTree, msg: A.Message) returns (r: Message)
    requires A.MessageOk(msg, |tree.intern|)
    ensures r == LowerMessage(tree, msg)
    decreases msg
  {
    var fields: seq<Field> := [];
    for i := 0 to |msg.fields|
      invariant |fields| == i
      invariant forall k :: 0 <= k < i ==> fields[k] == LowerField(tree, msg.fields[k])
    {
      var field := msg.fields[i];
      fields := fields + [Field(A.TreeStr(tree, field.name), field.idx,
        FieldTypeToRustStr(tree.intern, field.ftype), field.optional)];
    }
    var messages: seq<Message> := [];
    for i := 0 to |msg.messages|
      invariant |messages| == i
      invariant forall k :: 0 <= k < i ==> messages[k] == LowerMessage(tree, msg.messages[k])
    {
      var m := RollupMessage(tree, msg.messages[i]);
      messages := messages + [m];
    }
    var enums: seq<Enum> := [];
    for i := 0 to |msg.enums|
      invariant |enums| == i
      invariant forall k :: 0 <= k < i ==> enums[k] == LowerEnum(tree, msg.enums[k])
    {
      var e := RollupEnum(tree, msg.enums[i]);
      enums := enums + [e];
    }
    r := Message(A.TreeStr(tree, msg.name), fields, messages, enums);
  }

  /**
   * `SerializeTree::from_parse_tree`. The per-message field list it builds
   * first is dropped, so each message is exactly its `rollup_message`.
   */
  method FromParseTree(tree: A.ParseTree) returns (r: SerializeTree)
    requires A.TreeOk(tree)
    ensures r == LowerTree(tree)
  {
    var messages: seq<Message> := [];
    for i := 0 to |tree.messages|
      invariant |messages| == i
      invariant forall k :: 0 <= k < i ==> messages[k] == LowerMessage(tree, tree.messages[k])
    {
      var msg := tree.messages[i];
      assert msg in tree.messages;
      var fields: seq<Field> := [];
      for j := 0 to |msg.fields|
        invariant |fields| == j
      {
        var field := msg.fields[j];
        assert field in msg.fields;
        fields := fields + [Field(A.TreeStr(tree, field.name), field.idx,
          FieldTypeToRustStr(tree.intern, field.ftype), field.optional)];
      }
      var m := RollupMessage(tree, msg);
      messages := messages + [m];
    }
    var enums: seq<Enum> := [];
    for i := 0 to |tree.enums|
      invariant |enums| == i
      invariant forall k :: 0 <= k < i ==> enums[k] == LowerEnum(tree, tree.enums[k])
    {
      var e := RollupEnum(tree, tree.enums[i]);
      enums := enums + [e];
    }
    var services: seq<Service> := [];
    for i := 0 to |tree.services|
      invariant |services| == i
      invariant forall k :: 0 <= k < i ==> services[k] == LowerService(tree, tree.services[k])
    {
      var svc := tree.services[i];
      assert svc in tree.services;
      var rpcs: seq<Rpc> := [];
      for j := 0 to |svc.rpcs|
        invariant |rpcs| == j
        invariant forall k :: 0 <= k < j ==> rpcs[k] == LowerRpc(tree, svc.rpcs[k])
      {
        var rpc := svc.rpcs[j];
        assert rpc in svc.rpcs;
        rpcs := rpcs + [Rpc(A.TreeStr(tree, rpc.name), A.TreeStr(tree, rpc.argType), A.TreeStr(tree, rpc.retType))];
      }
      services := services + [Service(A.TreeStr(tree, svc.name), rpcs)];
    }
    r := SerializeTree(messages, enums, services);
  }

  /** The Rust type name a protobuf type name lowers to: the scalar names are renamed, any other name is kept. */
  function ProtoToRust(typeName: string): string {
    if typeName == "int32" then "i32"
    else if typeName == "int64" then "i64"
    else if typeName == "uint32" then "u32"
    else if typeName == "uint64" then "u64"
    else if typeName == "string" then "String"
    else typeName
  }

  /**
   * Parsing a field's type name and lowering the type gives back the name,
   * with the scalar names renamed: a message type is the text that was written.
   */
  lemma LoweredTypeName(names: seq<string>, typeName: string)
    ensures var (names', ft) := G.FieldTypeOf(names, typeName);
      A.FieldTypeOk(ft, |names'|) && FieldTypeToRustStr(names', ft) == ProtoToRust(typeName)
  {
  }

  /**
   * Lowering keeps every field in place: the name becomes its interned text,
   * the index and optionality are copied, and the type becomes its name.
   */
  lemma LowerMessageFields(t: A.ParseTree, m: A.Message)
    requires A.MessageOk(m, |t.intern|)
    ensures var r := LowerMessage(t, m);
      && Lookup(t.intern, m.name) == Some(r.name)
      && |r.fields| == |m.fields|
      && forall i :: 0 <= i < |m.fields| ==>
        && Lookup(t.intern, m.fields[i].name) == Some(r.fields[i].name)
        && r.fields[i].idx == m.fields[i].idx && r.fields[i].optional == m.fields[i].optional
        && r.fields[i].ftype == FieldTypeToRustStr(t.intern, m.fields[i].ftype)
  {
  }

  /** `rollup_enum` keeps the variant order, looks each name up and copies each id. */
  lemma LowerEnumVariants(t: A.ParseTree, e: A.Enum)
    requires A.EnumOk(e, |t.intern|)
    ensures var r := LowerEnum(t, e);
      && Lookup(t.intern, e.name) == Some(r.name)
      && |r.variants| == |e.variants|
      && forall i :: 0 <= i < |e.variants| ==>
        Lookup(t.intern, e.variants[i].name) == Some(r.variants[i].name) && r.variants[i].id == e.variants[i].id
  {
  }

  /** A lowered message has the nesting of the original: the same counts of fields, messages, enums and variants, all the way down. */
  ghost predicate SameShape(m: A.Message, l: Message)
    decreases m
  {
    && |l.fields| == |m.fields|
    && |l.enums| == |m.enums|
    && (forall i :: 0 <= i < |m.enums| ==> |l.enums[i].variants| == |m.enums[i].variants|)
    && |l.messages| == |m.messages|
    && (forall i :: 0 <= i < |m.messages| ==> SameShape(m.messages[i], l.messages[i]))
  }

  /** `rollup_message` keeps the nesting shape of the message, recursively. */
  lemma {:induction false} LowerKeepsShape(t: A.ParseTree, m: A.Message)
    requires A.MessageOk(m, |t.intern|)
    ensures SameShape(m, LowerMessage(t, m))
    decreases m
  {
    var r := LowerMessage(t, m);
    forall i | 0 <= i < |m.messages|
      ensures SameShape(m.messages[i], r.messages[i])
    {
      assert m.messages[i] in m.messages;
      LowerKeepsShape(t, m.messages[i]);
    }
  }

  /** Every name in a lowered message, nested ones included, is an interned text. */
  ghost predicate NamesInterned(l: Message, intern: seq<string>)
    decreases l
  {
    && l.name in intern
    && (forall f :: f in l.fields ==> f.name in intern)
    && (forall e :: e in l.enums ==> e.name in intern && forall v :: v in e.variants ==> v.name in intern)
    && (forall c :: c in l.messages ==> NamesInterned(c, intern))
  }

  lemma {:induction false} LowerNamesInterned(t: A.ParseTree, m: A.Message)
    requires A.MessageOk(m, |t.intern|)
    ensures NamesInterned(LowerMessage(t, m), t.intern)
    decreases m
  {
    var r := LowerMessage(t, m);
    forall c | c in r.messages
      ensures NamesInterned(c, t.intern)
    {
      var i :| 0 <= i < |r.messages| && r.messages[i] == c;
      assert m.messages[i] in m.messages;
      LowerNamesInterned(t, m.messages[i]);
    }
    forall e | e in r.enums
      ensures e.name in t.intern && forall v :: v in e.variants ==> v.name in t.intern
    {
      var i :| 0 <= i < |r.enums| && r.enums[i] == e;
      assert m.enums[i] in m.enums;
      forall v | v in e.variants ensures v.name in t.intern {
        var j :| 0 <= j < |e.variants| && e.variants[j] == v;
        assert m.enums[i].variants[j] in m.enums[i].variants;
      }
    }
    forall f | f in r.fields
      ensures f.name in t.intern
    {
      var i :| 0 <= i < |r.fields| && r.fields[i] == f;
      assert m.fields[i] in m.fields;
    }
  }

  /**
   * `from_parse_tree` keeps the count and order of the top-level messages,
   * enums and services; each rpc's name and argument and return types are
   * the interned texts.
   */
  lemma LowerTreeOrder(t: A.ParseTree)
    requires A.TreeOk(t)
    ensures var r := LowerTree(t);
      && |r.messages| == |t.messages| && |r.enums| == |t.enums| && |r.services| == |t.services|
      && (forall i :: 0 <= i < |t.messages| ==> Lookup(t.intern, t.messages[i].name) == Some(r.messages[i].name))
      && (forall i :: 0 <= i < |t.enums| ==> Lookup(t.intern, t.enums[i].name) == Some(r.enums[i].name))
      && forall i :: 0 <= i < |t.services| ==>
        var (s, l) := (t.services[i], r.services[i]);
        && Lookup(t.intern, s.name) == Some(l.name) && |l.rpcs| == |s.rpcs|
        && forall j :: 0 <= j < |s.rpcs| ==>
          && Lookup(t.intern, s.rpcs[j].name) == Some(l.rpcs[j].name)
          && Lookup(t.intern, s.rpcs[j].argType) == Some(l.rpcs[j].argType)
          && Lookup(t.intern, s.rpcs[j].retType) == Some(l.rpcs[j].retType)
  {
    var r := LowerTree(t);
    forall i | 0 <= i < |t.services|
      ensures |r.services[i].rpcs| == |t.services[i].rpcs|
    {
      assert t.services[i] in t.services;
    }
  }
}
