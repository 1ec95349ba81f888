/**
 * The C# back end of src/codegen_csharp.rs. It hands every node of the
 * lowered tree to a Tera template. The templates and Tera's rendering are
 * not part of this model: a render is the event of rendering one template
 * with one context, appended to the output in order.
 */
module CodegenCsharp {
  import opened Wrappers
  import L = Lowering

  /** A value a context can hold: one node of the lowered tree. */
  datatype Node = MessageNode(message: L.Message) | EnumNode(enum_: L.Enum) | ServiceNode(service: L.Service)

  /** A Tera context: keys bound to values. */
  type Context = map<string, Node>

  /** One `render_to`: the template's name, the context it saw and the functions registered with the engine. */
  datatype Event = Render(template: string, ctx: Context, functions: set<string>)

  /** The writer, as the sequence of renders written to it. */
  class Output {
    var events: seq<Event>

    constructor ()
      ensures events == []
    {
      events := [];
    }
  }

  /** The template engine: the names of the functions registered with it, each of them `tera_func`. */
  class Tera {
    var functions: set<string>

    constructor ()
      ensures functions == {}
    {
      functions := {};
    }

    method RegisterFunction(name: string)
      modifies this
      ensures functions == old(functions) + {name}
    {
      functions := functions + {name};
    }

    /** `Tera::render_to`, which cannot fail here. */
    method RenderTo(template: string, ctx: Context, w: Output)
      modifies w
      ensures w.events == old(w.events) + [Render(template, ctx, functions)]
    {
      w.events := w.events + [Render(template, ctx, functions)];
    }
  }

  /** A value of the arguments a template passes to a registered function. */
  datatype Value = Str(s: string) | Other

  /** `tera_func`: the `name` argument unchanged; Rust unwraps the lookup, so it must be there. */
  function TeraFunc(args: map<string, Value>): (r: Result<Value, string>)
    requires "name" in args
    ensures r.Ok? && r.value == args["name"]
  {
    Ok(args["name"])
  }

  /** The key a node is inserted under. */
  function Key(n: Node): string {
    match n
    case MessageNode(_) => "message"
    case EnumNode(_) => "enum"
    case ServiceNode(_) => "service"
  }

  /** The template a node is rendered with. */
  function Template(n: Node): string {
    match n
    case MessageNode(_) => "gen-message.cs.tera"
    case EnumNode(_) => "gen-enum.cs.tera"
    case ServiceNode(_) => "gen-service.cs.tera"
  }

  /** The render of `n`, with the functions `fs` registered, from a copy of `ctx` that also binds `n`'s key to `n`. */
  function NodeEvent(fs: set<string>, ctx: Context, n: Node): Event {
    Render(Template(n), ctx[Key(n) := n], fs)
  }

  function Events(fs: set<string>, ctx: Context, ns: seq<Node>): seq<Event> {
    seq(|ns|, i requires 0 <= i < |ns| => NodeEvent(fs, ctx, ns[i]))
  }

  function EnumNodes(es: seq<L.Enum>): seq<Node> {
    seq(|es|, i requires 0 <= i < |es| => EnumNode(es[i]))
  }

  function ServiceNodes(ss: seq<L.Service>): seq<Node> {
    seq(|ss|, i requires 0 <= i < |ss| => ServiceNode(ss[i]))
  }

  /** The nodes of `m` in the order `render_msg` renders them: nested messages, nested enums, then `m`. */
  function PostOrder(m: L.Message): seq<Node>
    decreases m, 1
  {
    PostOrders(m.messages) + EnumNodes(m.enums) + [MessageNode(m)]
  }

  function PostOrders(ms: seq<L.Message>): seq<Node>
    decreases ms, 0
  {
    if ms == [] then [] else PostOrder(ms[0]) + PostOrders(ms[1..])
  }

  /** Every node of `gen` after the builtin: the messages with their nested nodes, the enums, the services. */
  function Nodes(serial: L.SerializeTree): seq<Node> {
    PostOrders(serial.messages) + EnumNodes(serial.enums) + ServiceNodes(serial.services)
  }

  /** The functions `gen` registers, each of them `tera_func`. */
  const Registered: set<string> := {"fmt_struct", "fmt_var", "fmt_type"}

  /** The render of the builtin template, with an empty context. */
  function BuiltinEvent(): Event {
    Render("gen-builtin.cs", map[], Registered)
  }

  /** `render_enum`. */
  method RenderEnum(tera: Tera, ctx: Context, w: Output, enum_: L.Enum)
    modifies w
    ensures w.events == old(w.events) + [NodeEvent(tera.functions, ctx, EnumNode(enum_))]
  {
    var ctx' := ctx["enum" := EnumNode(enum_)];
    tera.RenderTo("gen-enum.cs.tera", ctx', w);
  }

  /** `render_service`. */
  method RenderService(tera: Tera, ctx: Context, w: Output, service: L.Service)
    modifies w
    ensures w.events == old(w.events) + [NodeEvent(tera.functions, ctx, ServiceNode(service))]
  {
    var ctx' := ctx["service" := ServiceNode(service)];
    tera.RenderTo("gen-service.cs.tera", ctx', w);
  }

  /** `render_msg`: each child gets a clone of `ctx`, and only the message's own render sees it bound. */
  method RenderMsg(tera: Tera, ctx: Context, w: Output, message: L.Message)
    modifies w
    ensures w.events == old(w.events) + Events(tera.functions, ctx, PostOrder(message))
    decreases message
  {
    ghost var start := w.events;
    for i := 0 to |message.messages|
      invariant w.events == start + Events(tera.functions, ctx, PostOrders(message.messages[..i]))
    {
      PostOrdersPrefix(message.messages, i);
      EventsAppend(tera.functions, ctx, PostOrders(message.messages[..i]), PostOrder(message.messages[i]));
      RenderMsg(tera, ctx, w, message.messages[i]);
      AppendAssoc(start, Events(tera.functions, ctx, PostOrders(message.messages[..i])), Events(tera.functions, ctx, PostOrder(message.messages[i])));
    }
    assert message.messages[..|message.messages|] == message.messages;
    ghost var mid := w.events;
    ghost var enumEvents := Events(tera.functions, ctx, EnumNodes(message.enums));
    for i := 0 to |message.enums|
      invariant w.events == mid + enumEvents[..i]
    {
      assert enumEvents[..i + 1] == enumEvents[..i] + [enumEvents[i]];
      RenderEnum(tera, ctx, w, message.enums[i]);
      AppendAssoc(mid, enumEvents[..i], [enumEvents[i]]);
    }
    assert enumEvents[..|message.enums|] == enumEvents;
    var ctx' := ctx["message" := MessageNode(message)];
    tera.RenderTo("gen-message.cs.tera", ctx', w);
    EventsAppend(tera.functions, ctx, PostOrders(message.messages), EnumNodes(message.enums));
    EventsAppend(tera.functions, ctx, PostOrders(message.messages) + EnumNodes(message.enums), [MessageNode(message)]);
    AppendAssoc(start, Events(tera.functions, ctx, PostOrders(message.messages)), enumEvents);
    AppendAssoc(start, Events(tera.functions, ctx, PostOrders(message.messages)) + enumEvents, [NodeEvent(tera.functions, ctx, MessageNode(message))]);
  }

  /** `CsharpCodeGen::gen`: the builtin, then every node, each rendered from an empty context. */
  method Gen(w: Output, serial: L.SerializeTree)
    modifies w
    ensures w.events == old(w.events) + [BuiltinEvent()] + Events(Registered, map[], Nodes(serial))
  {
    var tera := new Tera();
    tera.RegisterFunction("fmt_struct");
    tera.RegisterFunction("fmt_var");
    tera.RegisterFunction("fmt_type");
    assert tera.functions == Registered;
    var ctx: Context := map[];
    tera.RenderTo("gen-builtin.cs", ctx, w);
    ghost var start := w.events;
    for i := 0 to |serial.messages|
      invariant tera.functions == Registered
      invariant w.events == start + Events(tera.functions, ctx, PostOrders(serial.messages[..i]))
    {
      PostOrdersPrefix(serial.messages, i);
      EventsAppend(tera.functions, ctx, PostOrders(serial.messages[..i]), PostOrder(serial.messages[i]));
      RenderMsg(tera, ctx, w, serial.messages[i]);
      AppendAssoc(start, Events(tera.functions, ctx, PostOrders(serial.messages[..i])), Events(tera.functions, ctx, PostOrder(serial.messages[i])));
    }
    assert serial.messages[..|serial.messages|] == serial.messages;
    ghost var mid := w.events;
    ghost var enumEvents := Events(tera.functions, ctx, EnumNodes(serial.enums));
    for i := 0 to |serial.enums|
      invariant tera.functions == Registered
      invariant w.events == mid + enumEvents[..i]
    {
      assert enumEvents[..i + 1] == enumEvents[..i] + [enumEvents[i]];
      RenderEnum(tera, ctx, w, serial.enums[i]);
      AppendAssoc(mid, enumEvents[..i], [enumEvents[i]]);
    }
    assert enumEvents[..|serial.enums|] == enumEvents;
    ghost var mid' := w.events;
    ghost var serviceEvents := Events(tera.functions, ctx, ServiceNodes(serial.services));
    for i := 0 to |serial.services|
      invariant tera.functions == Registered
      invariant w.events == mid' + serviceEvents[..i]
    {
      assert serviceEvents[..i + 1] == serviceEvents[..i] + [serviceEvents[i]];
      RenderService(tera, ctx, w, serial.services[i]);
      AppendAssoc(mid', serviceEvents[..i], [serviceEvents[i]]);
    }
    assert serviceEvents[..|serial.services|] == serviceEvents;
    EventsAppend(tera.functions, ctx, PostOrders(serial.messages), EnumNodes(serial.enums));
    EventsAppend(tera.functions, ctx, PostOrders(serial.messages) + EnumNodes(serial.enums), ServiceNodes(serial.services));
    AppendAssoc(start, Events(tera.functions, ctx, PostOrders(serial.messages)), enumEvents);
    AppendAssoc(start, Events(tera.functions, ctx, PostOrders(serial.messages)) + enumEvents, serviceEvents);
  }

  lemma EventsAppend(fs: set<string>, ctx: Context, a: seq<Node>, b: seq<Node>)
    ensures Events(fs, ctx, a + b) == Events(fs, ctx, a) + Events(fs, ctx, b)
  {
  }

  lemma {:induction false} PostOrdersSnoc(ms: seq<L.Message>, m: L.Message)
    ensures PostOrders(ms + [m]) == PostOrders(ms) + PostOrder(m)
    decreases |ms|
  {
    if ms == [] {
      assert ms + [m] == [m];
      assert [m][1..] == [];
    } else {
      assert (ms + [m])[1..] == ms[1..] + [m];
      PostOrdersSnoc(ms[1..], m);
      AppendAssoc(PostOrder(ms[0]), PostOrders(ms[1..]), PostOrder(m));
    }
  }

  lemma PostOrdersPrefix(ms: seq<L.Message>, i: nat)
    requires i < |ms|
    ensures PostOrders(ms[..i + 1]) == PostOrders(ms[..i]) + PostOrder(ms[i])
  {
    assert ms[..i + 1] == ms[..i] + [ms[i]];
    PostOrdersSnoc(ms[..i], ms[i]);
  }

  /** The elements of a sequence of nodes. */
  function Elems(ns: seq<Node>): set<Node> {
    set n | n in ns
  }

  /** The nodes below `m`: its nested messages, their nodes, and its nested enums. */
  function Nested(m: L.Message): set<Node>
    decreases m, 1
  {
    NestedAll(m.messages) + Elems(EnumNodes(m.enums))
  }

  function NestedAll(ms: seq<L.Message>): set<Node>
    decreases ms, 0
  {
    if ms == [] then {} else {MessageNode(ms[0])} + Nested(ms[0]) + NestedAll(ms[1..])
  }

  /** The number of messages in `m`, nested ones included. */
  function Size(m: L.Message): nat
    decreases m, 1
  {
    1 + Sizes(m.messages)
  }

  function Sizes(ms: seq<L.Message>): nat
    decreases ms, 0
  {
    if ms == [] then 0 else Size(ms[0]) + Sizes(ms[1..])
  }

  /** A message below `m` is smaller than `m`, so no message is nested in itself. */
  lemma {:induction false} NestedSmaller(m: L.Message)
    ensures forall x :: MessageNode(x) in Nested(m) ==> Size(x) < Size(m)
    decreases m, 1
  {
    NestedAllSmaller(m.messages);
  }

  lemma {:induction false} NestedAllSmaller(ms: seq<L.Message>)
    ensures forall x :: MessageNode(x) in NestedAll(ms) ==> Size(x) <= Sizes(ms)
    decreases ms, 0
  {
    if ms != [] {
      NestedSmaller(ms[0]);
      NestedAllSmaller(ms[1..]);
    }
  }

  lemma {:induction false} PostOrderElems(m: L.Message)
    ensures Elems(PostOrder(m)) == Nested(m) + {MessageNode(m)}
    decreases m, 1
  {
    PostOrdersElems(m.messages);
    ElemsAppend(PostOrders(m.messages), EnumNodes(m.enums));
    ElemsAppend(PostOrders(m.messages) + EnumNodes(m.enums), [MessageNode(m)]);
  }

  lemma {:induction false} PostOrdersElems(ms: seq<L.Message>)
    ensures Elems(PostOrders(ms)) == NestedAll(ms)
    decreases ms, 0
  {
    if ms != [] {
      PostOrderElems(ms[0]);
      PostOrdersElems(ms[1..]);
      ElemsAppend(PostOrder(ms[0]), PostOrders(ms[1..]));
    }
  }

  lemma ElemsAppend(a: seq<Node>, b: seq<Node>)
    ensures Elems(a + b) == Elems(a) + Elems(b)
  {
  }

  /** The number of message and enum nodes in `m`, `m` itself included. */
  function NodeCount(m: L.Message): nat
    decreases m, 1
  {
    1 + |m.enums| + NodeCounts(m.messages)
  }

  function NodeCounts(ms: seq<L.Message>): nat
    decreases ms, 0
  {
    if ms == [] then 0 else NodeCount(ms[0]) + NodeCounts(ms[1..])
  }

  /** `render_msg` renders as many times as `m` has message and enum nodes: one render per node. */
  lemma {:induction false} PostOrderLength(m: L.Message)
    ensures |PostOrder(m)| == NodeCount(m)
    decreases m, 1
  {
    PostOrdersLength(m.messages);
  }

  lemma {:induction false} PostOrdersLength(ms: seq<L.Message>)
    ensures |PostOrders(ms)| == NodeCounts(ms)
    decreases ms, 0
  {
    if ms != [] {
      PostOrderLength(ms[0]);
      PostOrdersLength(ms[1..]);
    }
  }

  /**
   * `render_msg` renders a message after everything below it: its own
   * render is the last, the renders before it are of exactly the nodes
   * nested in it, and the message is not among those.
   */
  lemma ChildrenBeforeParent(m: L.Message)
    ensures var p := PostOrder(m);
      && p[|p| - 1] == MessageNode(m)
      && Elems(p[..|p| - 1]) == Nested(m)
      && MessageNode(m) !in Nested(m)
  {
    var p := PostOrder(m);
    var before := PostOrders(m.messages) + EnumNodes(m.enums);
    assert p[..|p| - 1] == before;
    PostOrdersElems(m.messages);
    ElemsAppend(PostOrders(m.messages), EnumNodes(m.enums));
    NestedSmaller(m);
  }

  /**
   * In `gen` every render after the builtin sees a context with exactly one
   * key, the one its template expects, bound to the node it renders.
   */
  lemma GenContexts(serial: L.SerializeTree)
    ensures var e := [BuiltinEvent()] + Events(Registered, map[], Nodes(serial));
      && e[0].template == "gen-builtin.cs" && e[0].ctx == map[]
      && (forall i :: 0 <= i < |e| ==> e[i].functions == {"fmt_struct", "fmt_var", "fmt_type"})
      && forall i :: 0 <= i < |Nodes(serial)| ==>
        var n := Nodes(serial)[i];
        && e[i + 1].ctx.Keys == {Key(n)} && e[i + 1].ctx[Key(n)] == n && e[i + 1].template == Template(n)
  {
  }

  /** A context that starts empty and is cloned to each child never holds more than the node's own key. */
  lemma SingleKey(fs: set<string>, n: Node)
    ensures |NodeEvent(fs, map[], n).ctx| == 1
  {
    assert NodeEvent(fs, map[], n).ctx.Keys == {Key(n)};
  }
}
