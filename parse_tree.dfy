/**
 * The data the front end parses into (src/parser.rs): field types, fields,
 * messages, services, RPCs, top-level items, tokens and the parse tree.
 * Names are ids into the tree's interner.
 */
module Ast {
  import opened Wrappers
  import opened Intern

  /** Rust's `u32`. */
  type u32 = x: int | 0 <= x < 0x1_0000_0000

  /**
   * A field's type. `MessageRef` is Rust's `FieldType::Message`; `EnumRef`
   * is the `Enum` variant the lowering and the backends expect.
   */
  datatype FieldType =
    | Int32 | Int64 | Uint32 | Uint64 | String
    | MessageRef(id: StringId)
    | EnumRef(id: StringId)
    | Undef

  datatype Field = Field(name: StringId, idx: u32, ftype: FieldType, optional: bool)

  datatype EnumVariant = EnumVariant(name: StringId, id: u32)

  datatype Enum = Enum(name: StringId, variants: seq<EnumVariant>)

  datatype Message = Message(name: StringId, fields: seq<Field>, messages: seq<Message>, enums: seq<Enum>)

  datatype Rpc = Rpc(name: StringId, argType: StringId, retType: StringId)

  datatype Service = Service(name: StringId, rpcs: seq<Rpc>)

  /** One item at the top of a file. A package statement carries nothing. */
  datatype TopLevelParse = SyntaxStatement | PackageItem | ServiceItem(service: Service) | MessageItem(message: Message)

  datatype Token =
    | Ident(text: string)
    | Semicolon | BraceOpen | BraceClose | ParensOpen | ParensClose | Quote | Equals
    | Number(text: string)
    | Comment(text: string)
    | Whitespace
    | Error(msg: string)

  datatype ParseError = ParseError(msg: string)

  /** The parse tree, carrying a copy of the interner's entries. */
  datatype ParseTree = ParseTree(messages: seq<Message>, enums: seq<Enum>, services: seq<Service>, intern: seq<string>)

  /** `ParseTree::get_str`: the interned text of `id`, which must be in range (it unwraps). */
  function TreeStr(t: ParseTree, id: StringId): (s: string)
    requires id < |t.intern|
    ensures Lookup(t.intern, id) == Some(s)
  {
    t.intern[id]
  }

  /** The type neither leaves an `Undef` behind nor refers outside the `n` interned strings. */
  predicate FieldTypeOk(t: FieldType, n: nat) {
    !t.Undef? && (t.MessageRef? ==> t.id < n) && (t.EnumRef? ==> t.id < n)
  }

  predicate EnumOk(e: Enum, n: nat) {
    e.name < n && forall v :: v in e.variants ==> v.name < n
  }

  /** Every id in `m` and its nested messages resolves, and no field type is `Undef`. */
  predicate MessageOk(m: Message, n: nat)
    decreases m
  {
    && m.name < n
    && (forall f :: f in m.fields ==> f.name < n && FieldTypeOk(f.ftype, n))
    && (forall e :: e in m.enums ==> EnumOk(e, n))
    && (forall c :: c in m.messages ==> MessageOk(c, n))
  }

  predicate ServiceOk(s: Service, n: nat) {
    s.name < n && forall r :: r in s.rpcs ==> r.name < n && r.argType < n && r.retType < n
  }

  /** What the lowering demands of a tree: every id resolves in its interner and no type is `Undef`. */
  predicate TreeOk(t: ParseTree) {
    && (forall m :: m in t.messages ==> MessageOk(m, |t.intern|))
    && (forall e :: e in t.enums ==> EnumOk(e, |t.intern|))
    && (forall s :: s in t.services ==> ServiceOk(s, |t.intern|))
  }

  /** The parser never builds enums: no enum declarations and no `EnumRef` field anywhere in `m`. */
  predicate EnumFree(m: Message)
    decreases m
  {
    && m.enums == []
    && (forall f :: f in m.fields ==> !f.ftype.EnumRef?)
    && (forall c :: c in m.messages ==> EnumFree(c))
  }

  /** Growing the interner keeps every id of a message resolvable. */
  lemma {:induction false} MessageOkMonotone(m: Message, n: nat, n': nat)
    requires MessageOk(m, n) && n <= n'
    ensures MessageOk(m, n')
    decreases m
  {
    forall c | c in m.messages
      ensures MessageOk(c, n')
    {
      MessageOkMonotone(c, n, n');
    }
  }
}
