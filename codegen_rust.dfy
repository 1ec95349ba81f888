/**
 * The Rust back end of src/codegen_rust.rs: a struct per message, parent
 * first, then an rpc stub per rpc of each service, written line by line.
 * The casing helpers call the `convert_case` crate and are parameters here:
 * `Casing.upperCamel` is `fmt_struct`, `Casing.snake` is `fmt_field` and
 * `fmt_func`.
 */
module CodegenRust {
  import opened Ast
  import L = Lowering
  import opened Wrappers

  /** The two conversions of `convert_case` the back end uses. */
  datatype Casing = Casing(upperCamel: string -> string, snake: string -> string)

  /** The output: every `writeln!` appends one line. */
  class Writer {
    var lines: seq<string>

    constructor ()
      ensures lines == []
    {
      lines := [];
    }

    method WriteLine(s: string)
      modifies this
      ensures lines == old(lines) + [s]
    {
      lines := lines + [s];
    }
  }

  predicate IsScalar(ft: FieldType) {
    ft.Int32? || ft.Int64? || ft.Uint32? || ft.Uint64? || ft.String?
  }

  /** `field_type_to_rust_str`; the other types are `unimplemented!()`. */
  function FieldTypeToRustStr(ft: FieldType): (r: string)
    requires IsScalar(ft)
    ensures r == "&[u8]" <==> ft.String?
    ensures !ft.String? ==>
      && |r| == 3
      && r[0] == (if ft.Int32? || ft.Int64? then 'i' else 'u')
      && r[1..] == (if ft.Int32? || ft.Uint32? then "32" else "64")
  {
    match ft
    case Int32 => "i32"
    case Int64 => "i64"
    case Uint32 => "u32"
    case Uint64 => "u64"
    case String => "&[u8]"
  }

  /** A field type this back end can write: a scalar, or a message whose name is interned. */
  predicate RustTypeOk(ft: FieldType, n: nat) {
    IsScalar(ft) || (ft.MessageRef? && ft.id < n)
  }

  /** What `gen_message` demands of a message: every name interned and every field type writable, nested ones included. */
  predicate RustMessageOk(m: Message, n: nat)
    decreases m
  {
    && m.name < n
    && FieldsOk(m.fields, n)
    && (forall c :: c in m.messages ==> RustMessageOk(c, n))
  }

  predicate RustTreeOk(p: ParseTree) {
    && (forall m :: m in p.messages ==> RustMessageOk(m, |p.intern|))
    && ServicesOk(p.services, |p.intern|)
  }
  predicate ServicesOk(ss: seq<Service>, n: nat) {
    forall s :: s in ss ==> ServiceOk(s, n)
  }

  /** The type text of a field: a message type is `fmt_struct` of its name. */
  function TypeText(p: ParseTree, ft: FieldType, c: Casing): string
    requires RustTypeOk(ft, |p.intern|)
  {
    if ft.MessageRef? then c.upperCamel(TreeStr(p, ft.id)) else FieldTypeToRustStr(ft)
  }

  function FieldLine(p: ParseTree, f: Field, c: Casing): string
    requires f.name < |p.intern| && RustTypeOk(f.ftype, |p.intern|)
  {
    "pub " + c.snake(TreeStr(p, f.name)) + ": " + TypeText(p, f.ftype, c) + ","
  }

  predicate FieldsOk(fs: seq<Field>, n: nat) {
    forall f :: f in fs ==> f.name < n && RustTypeOk(f.ftype, n)
  }

  /** A line per field, in declared order. */
  function FieldLines(p: ParseTree, fs: seq<Field>, c: Casing): seq<string>
    requires FieldsOk(fs, |p.intern|)
  {
    seq(|fs|, i requires 0 <= i < |fs| => FieldLine(p, fs[i], c))
  }

  /** The lines of one struct: its header, a line per field, the closing brace. */
  function StructLines(p: ParseTree, m: Message, c: Casing): seq<string>
    requires RustMessageOk(m, |p.intern|)
  {
    ["pub struct " + c.upperCamel(TreeStr(p, m.name)) + " {"] + FieldLines(p, m.fields, c) + ["}"]
  }

  /** `gen_message` as a function: the struct, then its nested messages, recursively. */
  function MessageLines(p: ParseTree, m: Message, c: Casing): seq<string>
    requires RustMessageOk(m, |p.intern|)
    decreases m, 1
  {
    StructLines(p, m, c) + MessagesLines(p, m.messages, c)
  }

  /** `gen_messages` as a function, on any list of messages. */
  function MessagesLines(p: ParseTree, ms: seq<Message>, c: Casing): seq<string>
    requires forall m :: m in ms ==> RustMessageOk(m, |p.intern|)
    decreases ms, 0
  {
    if ms == [] then [] else MessageLines(p, ms[0], c) + MessagesLines(p, ms[1..], c)
  }

  /** The stub of one rpc. */
  function RpcLine(p: ParseTree, r: Rpc, c: Casing): string
    requires r.name < |p.intern| && r.argType < |p.intern| && r.retType < |p.intern|
  {
    "pub fn " + c.snake(TreeStr(p, r.name)) + "(arg: " + c.upperCamel(TreeStr(p, r.argType))
    + ") -> " + c.upperCamel(TreeStr(p, r.retType)) + " { todo!() }"
  }

  /** `gen_service_callers` (and `gen_service_handlers`) as a function: a stub per rpc, in order. */
  function ServiceLines(p: ParseTree, s: Service, c: Casing): seq<string>
    requires ServiceOk(s, |p.intern|)
  {
    seq(|s.rpcs|, i requires 0 <= i < |s.rpcs| => RpcLine(p, s.rpcs[i], c))
  }

  function ServicesLines(p: ParseTree, ss: seq<Service>, c: Casing): seq<string>
    requires ServicesOk(ss, |p.intern|)
    decreases |ss|
  {
    if ss == [] then [] else ServiceLines(p, ss[0], c) + ServicesLines(p, ss[1..], c)
  }

  /** `gen` as a function: every message, then every service's stubs. */
  function GenLines(p: ParseTree, c: Casing): seq<string>
    requires RustTreeOk(p)
  {
    MessagesLines(p, p.messages, c) + ServicesLines(p, p.services, c)
  }

  /** `RustCodeGen::gen_message`. */
  method GenMessage(w: Writer, parse: ParseTree, msg: Message, c: Casing)
    requires RustMessageOk(msg, |parse.intern|)
    modifies w
    ensures w.lines == old(w.lines) + MessageLines(parse, msg, c)
    decreases msg
  {
    ghost var start := w.lines;
    ghost var fieldLines := FieldLines(parse, msg.fields, c);
    w.WriteLine("pub struct " + c.upperCamel(TreeStr(parse, msg.name)) + " {");
    ghost var head := w.lines;
    for i := 0 to |msg.fields|
      invariant w.lines == head + fieldLines[..i]
    {
      var field := msg.fields[i];
      var name := c.snake(TreeStr(parse, field.name));
      var type_ := if field.ftype.MessageRef? then c.upperCamel(TreeStr(parse, field.ftype.id))
        else FieldTypeToRustStr(field.ftype);
      assert fieldLines[..i + 1] == fieldLines[..i] + [fieldLines[i]];
      w.WriteLine("pub " + name + ": " + type_ + ",");
      AppendAssoc(head, fieldLines[..i], [fieldLines[i]]);
    }
    assert fieldLines[..|msg.fields|] == fieldLines;
    w.WriteLine("}");
    ghost var mid := w.lines;
    assert mid == start + StructLines(parse, msg, c);
    for i := 0 to |msg.messages|
      invariant w.lines == mid + MessagesLines(parse, msg.messages[..i], c)
    {
      var child := msg.messages[i];
      assert child in msg.messages;
      MessagesLinesPrefix(parse, msg.messages, i, c);
      GenMessage(w, parse, child, c);
      AppendAssoc(mid, MessagesLines(parse, msg.messages[..i], c), MessageLines(parse, child, c));
    }
    assert msg.messages[..|msg.messages|] == msg.messages;
    AppendAssoc(start, StructLines(parse, msg, c), MessagesLines(parse, msg.messages, c));
  }

  /** `RustCodeGen::gen_messages`. */
  method GenMessages(w: Writer, parse: ParseTree, c: Casing)
    requires forall m :: m in parse.messages ==> RustMessageOk(m, |parse.intern|)
    modifies w
    ensures w.lines == old(w.lines) + MessagesLines(parse, parse.messages, c)
  {
    ghost var start := w.lines;
    for i := 0 to |parse.messages|
      invariant w.lines == start + MessagesLines(parse, parse.messages[..i], c)
    {
      var msg := parse.messages[i];
      assert msg in parse.messages;
      MessagesLinesPrefix(parse, parse.messages, i, c);
      GenMessage(w, parse, msg, c);
      AppendAssoc(start, MessagesLines(parse, parse.messages[..i], c), MessageLines(parse, msg, c));
    }
    assert parse.messages[..|parse.messages|] == parse.messages;
  }

  /** `RustCodeGen::gen_service_callers`. */
  method GenServiceCallers(w: Writer, service: Service, parse: ParseTree, c: Casing)
    requires ServiceOk(service, |parse.intern|)
    modifies w
    ensures w.lines == old(w.lines) + ServiceLines(parse, service, c)
  {
    ghost var start := w.lines;
    for i := 0 to |service.rpcs|
      invariant w.lines == start + ServiceLines(parse, service, c)[..i]
    {
      var rpc := service.rpcs[i];
      assert rpc in service.rpcs;
      assert ServiceLines(parse, service, c)[..i + 1] == ServiceLines(parse, service, c)[..i] + [RpcLine(parse, rpc, c)];
      w.WriteLine("pub fn " + c.snake(TreeStr(parse, rpc.name)) + "(arg: " + c.upperCamel(TreeStr(parse, rpc.argType))
        + ") -> " + c.upperCamel(TreeStr(parse, rpc.retType)) + " { todo!() }");
      AppendAssoc(start, ServiceLines(parse, service, c)[..i], [RpcLine(parse, rpc, c)]);
    }
  }

  /** `RustCodeGen::gen_service_handlers`, which writes the same stubs and which `gen` does not call. */
  method GenServiceHandlers(w: Writer, service: Service, parse: ParseTree, c: Casing)
    requires ServiceOk(service, |parse.intern|)
    modifies w
    ensures w.lines == old(w.lines) + ServiceLines(parse, service, c)
  {
    ghost var start := w.lines;
    for i := 0 to |service.rpcs|
      invariant w.lines == start + ServiceLines(parse, service, c)[..i]
    {
      var rpc := service.rpcs[i];
      assert rpc in service.rpcs;
      assert ServiceLines(parse, service, c)[..i + 1] == ServiceLines(parse, service, c)[..i] + [RpcLine(parse, rpc, c)];
      w.WriteLine("pub fn " + c.snake(TreeStr(parse, rpc.name)) + "(arg: " + c.upperCamel(TreeStr(parse, rpc.argType))
        + ") -> " + c.upperCamel(TreeStr(parse, rpc.retType)) + " { todo!() }");
      AppendAssoc(start, ServiceLines(parse, service, c)[..i], [RpcLine(parse, rpc, c)]);
    }
  }

  /** `RustCodeGen::gen`. */
  method Gen(w: Writer, parse: ParseTree, c: Casing)
    requires RustTreeOk(parse)
    modifies w
    ensures w.lines == old(w.lines) + GenLines(parse, c)
  {
    ghost var start := w.lines;
    GenMessages(w, parse, c);
    ghost var mid := w.lines;
    for i := 0 to |parse.services|
      invariant w.lines == mid + ServicesLines(parse, parse.services[..i], c)
    {
      var service := parse.services[i];
      assert service in parse.services;
      ServicesLinesPrefix(parse, parse.services, i, c);
      GenServiceCallers(w, service, parse, c);
      AppendAssoc(mid, ServicesLines(parse, parse.services[..i], c), ServiceLines(parse, service, c));
    }
    assert parse.services[..|parse.services|] == parse.services;
    AppendAssoc(start, MessagesLines(parse, parse.messages, c), ServicesLines(parse, parse.services, c));
  }

  lemma {:induction false} MessagesLinesSnoc(p: ParseTree, ms: seq<Message>, m: Message, c: Casing)
    requires forall x :: x in ms ==> RustMessageOk(x, |p.intern|)
    requires RustMessageOk(m, |p.intern|)
    ensures MessagesLines(p, ms + [m], c) == MessagesLines(p, ms, c) + MessageLines(p, m, c)
    decreases |ms|
  {
    if ms == [] {
      assert ms + [m] == [m];
      assert [m][1..] == [];
    } else {
      assert (ms + [m])[1..] == ms[1..] + [m];
      MessagesLinesSnoc(p, ms[1..], m, c);
    }
  }

  lemma {:induction false} ServicesLinesSnoc(p: ParseTree, ss: seq<Service>, s: Service, c: Casing)
    requires forall x :: x in ss ==> ServiceOk(x, |p.intern|)
    requires ServiceOk(s, |p.intern|)
    ensures ServicesLines(p, ss + [s], c) == ServicesLines(p, ss, c) + ServiceLines(p, s, c)
    decreases |ss|
  {
    if ss == [] {
      assert ss + [s] == [s];
      assert [s][1..] == [];
    } else {
      assert (ss + [s])[1..] == ss[1..] + [s];
      ServicesLinesSnoc(p, ss[1..], s, c);
    }
  }

  lemma MessagesLinesPrefix(p: ParseTree, ms: seq<Message>, i: nat, c: Casing)
    requires i < |ms|
    requires forall x :: x in ms ==> RustMessageOk(x, |p.intern|)
    ensures MessagesLines(p, ms[..i + 1], c) == MessagesLines(p, ms[..i], c) + MessageLines(p, ms[i], c)
  {
    assert ms[..i + 1] == ms[..i] + [ms[i]];
    MessagesLinesSnoc(p, ms[..i], ms[i], c);
  }

  lemma ServicesLinesPrefix(p: ParseTree, ss: seq<Service>, i: nat, c: Casing)
    requires i < |ss|
    requires forall x :: x in ss ==> ServiceOk(x, |p.intern|)
    ensures ServicesLines(p, ss[..i + 1], c) == ServicesLines(p, ss[..i], c) + ServiceLines(p, ss[i], c)
  {
    assert ss[..i + 1] == ss[..i] + [ss[i]];
    ServicesLinesSnoc(p, ss[..i], ss[i], c);
  }

  /** On scalars the two Rust type tables agree except on `string`, a borrowed byte slice here and an owned `String` in the lowering. */
  lemma ScalarTypeNames(intern: seq<string>, ft: FieldType)
    requires IsScalar(ft)
    ensures FieldTypeToRustStr(ft) == L.FieldTypeToRustStr(intern, ft) <==> !ft.String?
    ensures ft.String? ==> FieldTypeToRustStr(ft) == "&[u8]" && L.FieldTypeToRustStr(intern, ft) == "String"
  {
  }

  /** A tree the parser builds suits this back end: its messages are free of enums, so every field type is a scalar or a message. */
  lemma {:induction false} ParsedMessageRustOk(m: Message, n: nat)
    requires MessageOk(m, n) && EnumFree(m)
    ensures RustMessageOk(m, n)
    decreases m
  {
    forall x | x in m.messages
      ensures RustMessageOk(x, n)
    {
      ParsedMessageRustOk(x, n);
    }
  }

  /** The messages of `m` and of its nested messages, in pre-order: a parent before its children, children in declared order. */
  function PreOrder(m: Message): seq<Message>
    decreases m, 1
  {
    [m] + PreOrders(m.messages)
  }

  function PreOrders(ms: seq<Message>): seq<Message>
    decreases ms, 0
  {
    if ms == [] then [] else PreOrder(ms[0]) + PreOrders(ms[1..])
  }

  /** The structs of `ms`, one after the other, without nesting. */
  function StructsLines(p: ParseTree, ms: seq<Message>, c: Casing): seq<string>
    requires forall m :: m in ms ==> RustMessageOk(m, |p.intern|)
    decreases |ms|
  {
    if ms == [] then [] else StructLines(p, ms[0], c) + StructsLines(p, ms[1..], c)
  }

  lemma {:induction false} StructsLinesAppend(p: ParseTree, a: seq<Message>, b: seq<Message>, c: Casing)
    requires forall m :: m in a ==> RustMessageOk(m, |p.intern|)
    requires forall m :: m in b ==> RustMessageOk(m, |p.intern|)
    ensures StructsLines(p, a + b, c) == StructsLines(p, a, c) + StructsLines(p, b, c)
    decreases |a|
  {
    if a == [] {
      assert a + b == b;
    } else {
      assert (a + b)[1..] == a[1..] + b;
      StructsLinesAppend(p, a[1..], b, c);
    }
  }

  /** Every message in the pre-order of a well-formed message is well-formed. */
  lemma {:induction false} PreOrderOk(m: Message, n: nat)
    requires RustMessageOk(m, n)
    ensures forall x :: x in PreOrder(m) ==> RustMessageOk(x, n)
    decreases m, 1
  {
    PreOrdersOk(m.messages, n);
  }

  lemma {:induction false} PreOrdersOk(ms: seq<Message>, n: nat)
    requires forall x :: x in ms ==> RustMessageOk(x, n)
    ensures forall x :: x in PreOrders(ms) ==> RustMessageOk(x, n)
    decreases ms, 0
  {
    if ms != [] {
      PreOrderOk(ms[0], n);
      PreOrdersOk(ms[1..], n);
    }
  }

  /** `gen_message` writes one flat struct per message of the pre-order, and nothing else. */
  lemma {:induction false} MessageLinesPreOrder(p: ParseTree, m: Message, c: Casing)
    requires RustMessageOk(m, |p.intern|)
    ensures (forall x :: x in PreOrder(m) ==> RustMessageOk(x, |p.intern|))
      && MessageLines(p, m, c) == StructsLines(p, PreOrder(m), c)
    decreases m, 1
  {
    PreOrderOk(m, |p.intern|);
    PreOrdersOk(m.messages, |p.intern|);
    MessagesLinesPreOrder(p, m.messages, c);
    StructsLinesAppend(p, [m], PreOrders(m.messages), c);
    assert [m][1..] == [];
  }

  lemma {:induction false} MessagesLinesPreOrder(p: ParseTree, ms: seq<Message>, c: Casing)
    requires forall x :: x in ms ==> RustMessageOk(x, |p.intern|)
    ensures (forall x :: x in PreOrders(ms) ==> RustMessageOk(x, |p.intern|))
      && MessagesLines(p, ms, c) == StructsLines(p, PreOrders(ms), c)
    decreases ms, 0
  {
    PreOrdersOk(ms, |p.intern|);
    if ms != [] {
      PreOrderOk(ms[0], |p.intern|);
      PreOrdersOk(ms[1..], |p.intern|);
      MessageLinesPreOrder(p, ms[0], c);
      MessagesLinesPreOrder(p, ms[1..], c);
      StructsLinesAppend(p, PreOrder(ms[0]), PreOrders(ms[1..]), c);
    }
  }

  /** The tree of `test_struct_write`: one message with one `int32` field. */
  function StructWriteTree(): ParseTree {
    ParseTree([Message(0, [Field(1, 1, Int32, false)], [], [])], [], [], ["TestMessage", "page_number"])
  }

  /** The tree of `test_rpc_write_caller`: an empty message and a service with one rpc. */
  function RpcWriteTree(): ParseTree {
    ParseTree([Message(0, [], [], [])], [], [Service(1, [Rpc(2, 0, 0)])], ["TestMessage", "Backend", "doer"])
  }

  /** `test_struct_write`: the struct and its one field, each on its own line. */

  lemma StructWriteLines(c: Casing)
    requires c.upperCamel("TestMessage") == "TestMessage" && c.snake("page_number") == "page_number"
    ensures RustTreeOk(StructWriteTree())
      && GenLines(StructWriteTree(), c) == ["pub struct TestMessage {", "pub page_number: i32,", "}"]
  {
    var t := StructWriteTree();
    StructWriteStruct(c);
    assert MessageLines(t, t.messages[0], c) == StructLines(t, t.messages[0], c);
    assert MessagesLines(t, t.messages, c) == StructLines(t, t.messages[0], c);
  }

  lemma StructWriteStruct(c: Casing)
    requires c.upperCamel("TestMessage") == "TestMessage" && c.snake("page_number") == "page_number"
    ensures RustMessageOk(StructWriteTree().messages[0], 2)
      && StructLines(StructWriteTree(), StructWriteTree().messages[0], c) == ["pub struct TestMessage {", "pub page_number: i32,", "}"]
  {
    var t := StructWriteTree();
    var m := t.messages[0];
    assert TreeStr(t, 0) == "TestMessage" && TreeStr(t, 1) == "page_number";
    var h := "pub struct " + c.upperCamel(TreeStr(t, m.name)) + " {";
    assert h == "pub struct TestMessage {";
    assert FieldLine(t, m.fields[0], c) == "pub page_number: i32,";
    assert FieldLines(t, m.fields, c) == ["pub page_number: i32,"];
  }

  /** `test_rpc_write_caller` and `test_rpc_write_handler`: an empty struct, then the rpc's stub. */

  lemma RpcWriteLines(c: Casing)
    requires c.upperCamel("TestMessage") == "TestMessage" && c.snake("doer") == "doer"
    ensures RustTreeOk(RpcWriteTree())
      && GenLines(RpcWriteTree(), c) == ["pub struct TestMessage {", "}", "pub fn doer(arg: TestMessage) -> TestMessage { todo!() }"]
  {
    var t := RpcWriteTree();
    RpcWriteStruct(c);
    RpcWriteStub(c);
    assert MessageLines(t, t.messages[0], c) == StructLines(t, t.messages[0], c);
    assert MessagesLines(t, t.messages, c) == ["pub struct TestMessage {", "}"];
    assert ServicesLines(t, t.services, c) == ["pub fn doer(arg: TestMessage) -> TestMessage { todo!() }"];
  }

  lemma RpcWriteStruct(c: Casing)
    requires c.upperCamel("TestMessage") == "TestMessage"
    ensures RustMessageOk(RpcWriteTree().messages[0], 3)
      && StructLines(RpcWriteTree(), RpcWriteTree().messages[0], c) == ["pub struct TestMessage {", "}"]
  {
    var t := RpcWriteTree();
    var m := t.messages[0];
    assert TreeStr(t, 0) == "TestMessage";
    var h := "pub struct " + c.upperCamel(TreeStr(t, m.name)) + " {";
    assert h == "pub struct TestMessage {";
    assert FieldLines(t, m.fields, c) == [];
  }

  lemma RpcWriteStub(c: Casing)
    requires c.upperCamel("TestMessage") == "TestMessage" && c.snake("doer") == "doer"
    ensures ServiceOk(RpcWriteTree().services[0], 3)
      && ServiceLines(RpcWriteTree(), RpcWriteTree().services[0], c) == ["pub fn doer(arg: TestMessage) -> TestMessage { todo!() }"]
  {
    var t := RpcWriteTree();
    var r := t.services[0].rpcs[0];
    assert TreeStr(t, 2) == "doer" && TreeStr(t, 0) == "TestMessage";
    var name, arg, ret := c.snake(TreeStr(t, r.name)), c.upperCamel(TreeStr(t, r.argType)), c.upperCamel(TreeStr(t, r.retType));
    assert name == "doer" && arg == "TestMessage" && ret == "TestMessage";
    assert RpcLine(t, r, c) == "pub fn " + name + "(arg: " + arg + ") -> " + ret + " { todo!() }";
    StubLiteral();
  }

  lemma StubLiteral()
    ensures "pub fn " + "doer" + "(arg: " + "TestMessage" + ") -> " + "TestMessage" + " { todo!() }"
      == "pub fn doer(arg: TestMessage) -> TestMessage { todo!() }"
  {
    assert "pub fn " + "doer" == "pub fn doer";
    assert "pub fn doer" + "(arg: " == "pub fn doer(arg: ";
    assert "pub fn doer(arg: " + "TestMessage" == "pub fn doer(arg: TestMessage";
    assert "pub fn doer(arg: TestMessage" + ") -> " == "pub fn doer(arg: TestMessage) -> ";
    assert "pub fn doer(arg: TestMessage) -> " + "TestMessage" == "pub fn doer(arg: TestMessage) -> TestMessage";
  }
}
