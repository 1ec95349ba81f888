# proto-gen, modelled in Dafny

proto-gen reads a protobuf-like schema (`syntax`, `message`, `service`/`rpc`)
and generates code from it. This project models its front end and both back
ends:

- **Tokenizer.** It reads the character stream one character at a time, with
  one character of pushback and line and column counters.
- **Parser.** A recursive-descent parser builds a tree of messages, fields,
  services and rpcs.
  - Names are interned as they are read.
- **Lowering.** It replaces every interned id with its text and every field
  type with a type name.
- **Rust back end.** It writes one struct per message, parent first, then one
  stub per rpc.
- **C# back end.** It renders one template per node, children before parent.
- **`find_struct_bounds`.** The byte scanner of the Rust runtime template.

The model comes in two layers:

- **A pure specification.**
  - `Lexer.Scan`/`Lexer.Lex` read characters into tokens.
  - `Lexer.NextSig` skips whitespace and comments.
  - The `Grammar` functions read tokens and thread the interner's entries
    through.
  - The `Lowering`, `CodegenRust` and `CodegenCsharp` functions build trees,
    lines and render events.
- **The imperative code, proved against that specification.**
  - Class `Parsing.Parser` holds the pending character, the unread input, the
    counters and the interner.
    - Its methods follow `next_char`, `peek_char`, `next_token` and the
      `parse_*` functions loop for loop.
    - Each method is proved to leave the parser where the grammar says.
  - Class `Intern.StringIntern` wraps the insertion-ordered set.
  - The lowering's loops build `seq`s.
  - `CodegenRust.Writer` is a list of written lines.
  - `CodegenCsharp.Output` is a list of render events.
  - `FindStructBounds` is a loop over a byte sequence.

Other decisions of the model:

- **Failures.** Every `todo!()`, `panic!()` and `unwrap()` of the parser sits
  at a grammar error.
  - Each one is an `Err(ParseError(..))` outcome whose message is made up.
  - `validate` accepts every tree, because the source's version does nothing.
  - The lowering and the Rust back end instead demand, as preconditions, the
    trees on which their `unwrap()` and `unimplemented!()` are not reached.
  - `Pipeline.ParsedTreeFitsBackEnds` proves that every parsed tree meets
    those preconditions.
- **Enums.** `src/serializable_tree.rs` and `src/codegen_rust.rs` use
  `FieldType::Enum`, `parser::Enum`, `Message.enums` and `ParseTree.enums`,
  which `src/parser.rs` does not declare.
  - The AST (`Ast`) has those parts, exactly as the lowering uses them.
  - The parser never builds them: there is no `enum` keyword.
  - `GrammarFacts.ParseValue` proves that a parsed tree has no enums.
- **Counters.** `next_char` counts the characters it takes from the iterator.
  - Inside a block comment, the character after each `*` is fetched by
    `peek_char`, which does not count.
  - A later `next_char` then returns it from the pushback slot, again without
    counting.
  - So such characters are never counted, newlines included.
  - `Lexer.Track` models this as written.
- **Casing.** The casing helpers call the `convert_case` crate, which is not
  part of this model.
  - They are the function parameters of `CodegenRust.Casing`.
  - The code-generation tests fix the values they need: `TestMessage`,
    `page_number` and `doer` map to themselves.

## Model

| member | source | states |
|---|---|---|
| Intern.IndexOf | src/intern.rs:12-13 | `get_index_of` is None exactly when the string is absent, and otherwise the first position holding it |
| Intern.Lookup | src/intern.rs:21-23 | `get_str(id)` is None exactly when `id >= len`, and otherwise the text at `id` |
| Intern.Interned | src/intern.rs:11-19 | `get_id` returns an id that holds the string; a present string leaves the set unchanged, and a new one is appended at the old length |
| Intern.InternPresent | src/intern.rs:12-13 | `get_id` of a string already in the set returns its index and leaves the set unchanged |
| Intern.InternAbsent | src/intern.rs:14-18 | `get_id` of a new string returns the old length and appends the string |
| Intern.InternRoundTrip | src/intern.rs:11-23 | `get_str(get_id(s)) == Some(s)`, and the id is below the new length |
| Intern.InternExtends | src/intern.rs:11-19 | `get_id` keeps every earlier entry in place, adds at most one, and keeps the entries distinct |
| Intern.InternGrows | src/intern.rs:11-19 | after `get_id(s)` the set extends the old one and holds `s` at the returned id |
| Intern.InternAllConsistent | src/intern.rs:7-19 | after interning any list of strings, each id looks up to its string, and two ids are equal exactly when their strings are |
| Intern.StringIntern.constructor | src/intern.rs:6-9 | a new interner is empty |
| Intern.StringIntern.GetId | src/intern.rs:11-20 | `get_id` changes the set and returns the id exactly as `InternPresent`/`InternAbsent` say, and keeps the entries distinct |
| Intern.StringIntern.GetStr | src/intern.rs:21-23 | `get_str(id)` is None exactly when `id` is outside the set, and otherwise the text at `id` |
| Ast.TreeStr | src/parser.rs:112-115 | `ParseTree::get_str` returns the text `get_str` of the interner finds, for an id in range |
| Lexer.Scan | src/parser.rs:193-276 | one `next_token` on non-empty input consumes at least one character and no more than there are |
| Lexer.Punctuation | src/parser.rs:264-273 | the seven punctuation characters give their own tokens, and any other character gives `Error("Unexpected char")` |
| Lexer.Lex | src/parser.rs:193-276 | calling `next_token` until it returns None gives no more tokens than there are characters, and none exactly on empty input |
| Lexer.BlockEndFirst | src/parser.rs:229-236 | a block comment ends at the first `*/` after its opening, and no `*/` comes before it |
| Lexer.ScanIdent | src/parser.rs:196-207 | an identifier is the longest run of `[A-Za-z0-9_]` after its first letter or `_`, and the next character is not consumed |
| Lexer.ScanNumber | src/parser.rs:243-254 | a number is the longest run of numeric characters, and the character after it is not consumed |
| Lexer.ScanWhitespace | src/parser.rs:255-263 | a whitespace run of any length is one `Whitespace` token, and the character after it is not consumed |
| Lexer.ScanLineComment | src/parser.rs:217-226 | a line comment holds `//` and everything up to the newline, excluding it; the newline is consumed |
| Lexer.ScanBlockComment | src/parser.rs:227-238 | a block comment holds the full `/*...*/`; an unterminated one is `Error("Expected /")` that consumes the rest |
| Lexer.ScanBadSlash | src/parser.rs:212-239 | `/` followed by anything but `/` or `*` is `Error("Expected /")`, consuming both characters |
| Lexer.ScanSingle | src/parser.rs:264-273 | any other character is one token: its punctuation token, or `Error("Unexpected char")`, which is what a final `/` gets |
| Lexer.LexStep | src/parser.rs:193-276 | one `next_token` returns the scanned token and leaves the tokens of the rest, or None on empty input |
| Lexer.NextSig | src/parser.rs:183-191 | `next_non_ws_token` leaves nothing behind when it returns None, and otherwise consumes at least one token |
| Lexer.NextSigSkipsTrivia | src/parser.rs:183-191 | `next_non_ws_token` skips exactly the leading whitespace and comments, and returns the first other token, or None when all are trivia |
| Lexer.NextSigSignificant | src/parser.rs:183-191 | successive `next_non_ws_token` calls return the non-trivia tokens in order |
| Lexer.SigStep | src/parser.rs:183-191 | one `next_non_ws_token` returns the head of the significant tokens and leaves their tail |
| Lexer.AdvanceCounts | src/parser.rs:145-150 | the line counter grows by the number of newlines read; the column counts the characters since the last newline |
| Lexer.TrackCounted | src/parser.rs:229-235 | the counters step over exactly the characters `next_char` draws from the iterator, leaving out those `peek_char` fetched after a `*` |
| Lexer.CountedPlain | src/parser.rs:136-151 | outside block comments every character read is counted |
| Parsing.Parser.constructor | src/parser.rs:173-181 | a new parser has an empty interner, zero counters, nothing pending, and the input's tokens still to read |
| Parsing.Parser.UnnextChar | src/parser.rs:132-135 | pushing back needs an empty pushback slot, fills it, and leaves the counters and the input alone |
| Parsing.Parser.NextChar | src/parser.rs:136-151 | a pushed-back character comes back first, without counting; otherwise the iterator's next character is counted, with line+1 and column 1 after a newline |
| Parsing.Parser.PeekChar | src/parser.rs:152-158 | peeking returns the next character without consuming it or touching the counters |
| Parsing.Parser.ReadRun | src/parser.rs:199-205 | the inner loops read the longest run of characters satisfying the class and push back the first other character |
| Parsing.Parser.ReadLine | src/parser.rs:220-225 | the line-comment loop reads up to a newline, which it consumes and does not keep |
| Parsing.Parser.ReadBlock | src/parser.rs:229-238 | the block-comment loop returns the comment up to the first `*/`, or `Error("Expected /")` after consuming everything |
| Parsing.Parser.LexIdent | src/parser.rs:196-207 | the identifier branch returns the token `Scan` describes, with the counters stepped over what it read |
| Parsing.Parser.LexNumber | src/parser.rs:243-254 | the number branch returns the token `Scan` describes, with the counters stepped over what it read |
| Parsing.Parser.LexWhitespace | src/parser.rs:255-263 | the whitespace branch returns the token `Scan` describes, with the counters stepped over what it read |
| Parsing.Parser.LexSlash | src/parser.rs:212-240 | the comment branch returns the line comment, the block comment or the error that `Scan` describes; a `/` at the end of the input falls through |
| Parsing.Parser.NextToken | src/parser.rs:193-276 | `next_token` returns the head of the token stream and leaves its tail, stepping the counters; None at the end of the input |
| Parsing.Parser.NextNonWsToken | src/parser.rs:183-191 | `next_non_ws_token` does what `NextSig` says to the token stream |
| Parsing.Parser.ParseFieldOfType | src/parser.rs:444-470 | `parse_field_of_type` fails where `PField` fails, and otherwise returns its field and leaves the tokens and interner where it does |
| Parsing.Parser.ParseMessage | src/parser.rs:408-442 | `parse_message`, with its loop and recursion, agrees with `PMessage` |
| Parsing.Parser.ParseRpc | src/parser.rs:367-406 | `parse_rpc` agrees with `PRpc` |
| Parsing.Parser.ParseService | src/parser.rs:341-365 | `parse_service` and its loop agree with `PService` |
| Parsing.Parser.ParseSyntax | src/parser.rs:322-339 | `parse_syntax` agrees with `PSyntax` and does not touch the interner |
| Parsing.Parser.NextParse | src/parser.rs:304-320 | `next_parse` returns None, consuming only trivia, exactly when `PNext` does, and otherwise agrees with it |
| Parsing.Parser.Parse | src/parser.rs:278-301 | `parse` returns exactly what `PParse` gives on the tokens and the interner |
| Parsing.ParseInput | src/parser.rs:278-301 | a fresh parser on a text returns `ParseText` of it |
| Grammar.ParseU32 | src/parser.rs:461-465 | a field number is accepted exactly when it is one or more ASCII digits whose value fits in `u32`, and its value is that number |
| Grammar.ScalarType | src/parser.rs:446-453 | exactly the five names `int32 int64 uint32 uint64 string` are scalar type names, and each gives a scalar type |
| Grammar.FieldTypeOf | src/parser.rs:446-453 | the five scalar names map to their types without interning; any other name becomes a message reference to its interned id |
| Grammar.PField | src/parser.rs:444-470 | a successful field parse consumes tokens |
| Grammar.PFieldIndex | src/parser.rs:458-469 | a successful `= number ;` parse consumes tokens |
| Grammar.PMessage | src/parser.rs:408-416 | a successful message parse consumes tokens |
| Grammar.PMessageBody | src/parser.rs:419-441 | a successful message-body parse consumes tokens |
| Grammar.PRpc | src/parser.rs:367-383 | a successful rpc parse consumes tokens |
| Grammar.PRpcReturns | src/parser.rs:384-405 | a successful `returns ( ret ) ;` parse consumes tokens |
| Grammar.PService | src/parser.rs:341-365 | a successful service parse consumes tokens and yields a service item |
| Grammar.PServiceBody | src/parser.rs:350-364 | a successful service-body parse consumes tokens |
| Grammar.PSyntax | src/parser.rs:322-339 | a successful syntax parse consumes tokens, yields the syntax statement and interns nothing |
| Grammar.PNext | src/parser.rs:304-320 | `next_parse` is None exactly when only whitespace and comments are left, and a successful item consumes tokens |
| Grammar.Validate | src/parser.rs:122-126 | `validate` accepts every tree |
| Grammar.PParse | src/parser.rs:278-301 | a successful `parse` starts with the keyword `syntax` and builds no enums |
| Grammar.PItems | src/parser.rs:286-300 | the loop of `parse` keeps what it has collected in front and builds no enums |
| GrammarFacts.FieldSyntax | src/parser.rs:444-470 | a field parses exactly when its significant tokens are identifier, `=`, a `u32` number and `;`; it takes those four, and the index is that number |
| GrammarFacts.FieldIndexSyntax | src/parser.rs:458-469 | `= number ;` parses exactly when those three tokens come next, and yields a non-optional field with that index |
| GrammarFacts.FieldValue | src/parser.rs:444-457 | a parsed field has the identifier read as its name, is not optional, and has a scalar type or a message reference to the type name's text |
| GrammarFacts.FieldOk | src/parser.rs:446-457 | a parsed field's type is neither `Undef` nor an enum, and its ids resolve |
| GrammarFacts.FieldFromTokens | src/parser.rs:444-470 | a parsed field is the one its significant tokens describe: name, index and type from the tokens, not optional |
| GrammarFacts.MessageValue | src/parser.rs:408-442 | a parsed message's ids all resolve in the grown interner, it holds no enums, and it is named by the identifier before `{` |
| GrammarFacts.MessageBodyValue | src/parser.rs:419-441 | the message loop keeps the fields and nested messages it has in front of those it adds, keeps the name and enums, and keeps the message well formed |
| GrammarFacts.MessageBodyItems | src/parser.rs:419-441 | one round of the message loop: `}` ends it unchanged; `message` puts the nested message read next right after the messages so far; `optional` puts the field read after the type name right after the fields so far, with `optional` set; any other identifier is the type name of the next field, not optional |
| GrammarFacts.RpcSyntax | src/parser.rs:367-406 | an rpc parses exactly when its significant tokens are `name ( arg ) returns ( ret ) ;`, and it takes those nine |
| GrammarFacts.RpcReturnsSyntax | src/parser.rs:384-405 | `returns ( ret ) ;` parses exactly when those five tokens come next |
| GrammarFacts.RpcValue | src/parser.rs:367-398 | an rpc's name, argument and return type are the interned texts of its three identifiers |
| GrammarFacts.RpcReturnsValue | src/parser.rs:395-398 | the return type is the interned text of the identifier in the parentheses |
| GrammarFacts.SyntaxSyntax | src/parser.rs:322-339 | `parse_syntax` succeeds exactly when the significant tokens start with `=` and `"`, the very next token is `proto3` (trivia there is rejected), and the significant tokens after it are `"` and `;`; it takes everything up to the `;` |
| GrammarFacts.ServiceBodyValue | src/parser.rs:350-364 | the service loop keeps the rpcs it has in front of those it adds, and keeps the name |
| GrammarFacts.ServiceBodyItems | src/parser.rs:350-364 | one round of the service loop: `}` ends it unchanged, `rpc` puts the rpc read next right after the rpcs so far, and nothing else is accepted |
| GrammarFacts.ServiceValue | src/parser.rs:341-365 | a parsed service's ids all resolve in the grown interner, and it is named by the identifier before `{` |
| GrammarFacts.NextValue | src/parser.rs:304-320 | every item `next_parse` returns is well formed against the grown interner, and never a package |
| GrammarFacts.ItemsValue | src/parser.rs:286-296 | the loop of `parse` keeps the services and messages it has in front of those it adds, and the tree is well formed |
| GrammarFacts.ItemsNext | src/parser.rs:286-299 | one round of the loop of `parse`: with only trivia left the tree is what was collected; `service` and `message` put the item read next right after the services or messages so far; nothing else is accepted |
| GrammarFacts.ParseValue | src/parser.rs:278-301 | a parsed text starts with `syntax`, the first `next_parse` gives the syntax statement, and the tree resolves every id in its own interner, has no `Undef` type and no enums |
| GrammarFacts.ParseTextValue | src/parser.rs:278-301 | parsing a text from an empty interner gives a well-formed tree whose interner holds each text once |
| LexerExamples.SoloIdent | src/parser.rs:548-553 | `"hello"` is one identifier, then nothing |
| LexerExamples.LexPunctuation | src/parser.rs:264-273 | a run of `; { } ( ) " =` is one token per character |
| LexerExamples.SingleTokens | src/parser.rs:555-566 | `;{}()"=` is exactly the seven punctuation tokens |
| LexerExamples.SoloNumber | src/parser.rs:568-573 | `"12348"` is one number, then nothing |
| LexerExamples.SoloComment | src/parser.rs:575-580 | a line comment to the end of the input is one comment token holding all of it |
| LexerExamples.BlockCommentWhole | src/parser.rs:227-236 | `/*` + a body without `*` + `*/` is one comment token holding all of it |
| LexerExamples.SoloMultilineComment | src/parser.rs:582-588 | the block comment with a newline inside is one comment token holding all of it |
| LexerExamples.SoloWhitespace | src/parser.rs:590-597 | spaces and newlines together are one `Whitespace` token |
| LexerExamples.IdentPushback | src/parser.rs:196-207 | the character that ends an identifier starts the next token |
| LexSyntax.SyntaxLexes | src/parser.rs:474-480 | the text of `solo_syntax_test` reads as `syntax`, whitespace, `=`, whitespace, `"`, `proto3`, `"`, `;` |
| LexService.ServiceLexes | src/parser.rs:482-501 | the text of `solo_service_test` reads as its 21 tokens, whitespace included |
| LexMessage.MessageLexes | src/parser.rs:503-544 | the text of `solo_message_test` reads as its 44 tokens, whitespace included |
| LexComplex.ComplexLexes | src/parser.rs:599-648 | `complex_test`: the text reads as exactly the 32 tokens the test lists, then nothing |
| ParserExamples.SyntaxParse | src/parser.rs:474-480 | the tokens of `solo_syntax_test` parse to the syntax statement, leaving nothing |
| ParserExamples.SoloSyntax | src/parser.rs:474-480 | `solo_syntax_test`: `next_parse` gives the syntax statement, then None |
| ParserExamples.ServiceNames | src/parser.rs:492-496 | interning `hi`, `do`, `something`, `null` in turn gives ids 0 to 3 |
| ParserExamples.ServiceReturnsParse | src/parser.rs:482-501 | the `returns (null);` part of `solo_service_test` parses to the rpc `do(something) returns (null)` |
| ParserExamples.ServiceRpcParse | src/parser.rs:482-501 | the rpc of `solo_service_test` parses to `Rpc(do, something, null)` |
| ParserExamples.ServiceBodyParse | src/parser.rs:482-501 | the body of `solo_service_test` parses to its one rpc and consumes the closing brace |
| ParserExamples.ServiceItemParse | src/parser.rs:482-501 | after `service`, the service `hi` with its one rpc is parsed |
| ParserExamples.ServiceParse | src/parser.rs:482-501 | the tokens of `solo_service_test` parse to the expected service, leaving nothing |
| ParserExamples.SoloService | src/parser.rs:482-501 | `solo_service_test`: `next_parse` gives the service `hi` with the rpc `do(something) returns (null)`, then None |
| ParserExamples.FieldIndexAt | src/parser.rs:458-469 | `= d ;` followed by whitespace parses to the non-optional field numbered `d` |
| ParserExamples.FieldAt | src/parser.rs:444-470 | a field written `name = d ;` in the middle of a message parses to that field, with its type from the type name |
| ParserExamples.FieldTypes | src/parser.rs:446-453 | `string` and `int32` are scalar types; `inner` is a message reference to its interned id |
| ParserExamples.FieldNumbers | src/parser.rs:461-462 | `"1"` and `"2"` parse to 1 and 2 |
| ParserExamples.MessageMsgField | src/parser.rs:503-544 | in `solo_message_test`, `string msg = 1;` parses to field `msg`, tag 1 |
| ParserExamples.MessageInnerField | src/parser.rs:503-544 | `int32 inner_field = 1;` parses to that field |
| ParserExamples.MessageInnerBody | src/parser.rs:503-544 | the body of `inner` parses to its one field |
| ParserExamples.MessageInner | src/parser.rs:503-544 | the nested message `inner` parses to one message with one `int32` field |
| ParserExamples.MessageIdxField | src/parser.rs:503-544 | `inner idx = 2;` parses to field `idx`, tag 2, typed as a reference to the already interned `inner` |
| ParserExamples.MessageBodyLast | src/parser.rs:503-544 | the last field and the closing brace of `HiReq` complete the message |
| ParserExamples.MessageBodyInner | src/parser.rs:503-544 | after the optional field, the body parses the nested message and then the last field |
| ParserExamples.MessageBody | src/parser.rs:503-544 | the body of `HiReq` parses to the expected fields and nested message |
| ParserExamples.MessageParse | src/parser.rs:503-544 | the tokens of `solo_message_test` parse to `HiReq`: `msg` (string, optional, tag 1), `idx` (`inner`, tag 2), and the nested `inner` |
| ParserExamples.SoloMessage | src/parser.rs:503-544 | `solo_message_test`: `next_parse` gives the expected message, then None |
| Lowering.FieldTypeToRustStr | src/serializable_tree.rs:54-65 | a message or enum type lowers to the text of its id; the scalars lower to `i32`, `i64`, `u32`, `u64` and `String`; nothing else yields a scalar name |
| Lowering.RollupEnum | src/serializable_tree.rs:68-78 | `rollup_enum`'s loop gives the lowered enum |
| Lowering.RollupMessage | src/serializable_tree.rs:79-105 | `rollup_message`'s three loops and its recursion give the lowered message |
| Lowering.FromParseTree | src/serializable_tree.rs:106-142 | `from_parse_tree` gives the lowered tree; the field list it builds and drops changes nothing |
| Lowering.LoweredTypeName | src/serializable_tree.rs:54-65 | parsing a type name and lowering it gives the name back, with `int32 int64 uint32 uint64 string` renamed to `i32 i64 u32 u64 String` |
| Lowering.LowerMessageFields | src/serializable_tree.rs:81-88 | each lowered field has the looked-up name, the copied index and optionality, and the type's name; order and count are kept |
| Lowering.LowerEnumVariants | src/serializable_tree.rs:68-78 | `rollup_enum` keeps the variant order, looks up each name and copies each id |
| Lowering.LowerKeepsShape | src/serializable_tree.rs:89-104 | `rollup_message` keeps the counts of fields, nested messages, nested enums and their variants, at every depth |
| Lowering.LowerNamesInterned | src/serializable_tree.rs:79-105 | every name in a lowered message, nested ones included, is an interned text |
| Lowering.LowerTreeOrder | src/serializable_tree.rs:106-142 | `from_parse_tree` keeps the count and order of top-level messages, enums and services; rpc names and types are the interned texts |
| CodegenRust.Writer.constructor | src/codegen_rust.rs:149 | the writer starts empty |
| CodegenRust.Writer.WriteLine | src/codegen_rust.rs:90 | `writeln!` appends one line |
| CodegenRust.GenMessage | src/codegen_rust.rs:65-97 | `gen_message` appends the header line, then one `pub name: type,` line per field in order, then `}`, then its nested messages recursively |
| CodegenRust.GenMessages | src/codegen_rust.rs:54-63 | `gen_messages` appends every message's lines in order |
| CodegenRust.GenServiceCallers | src/codegen_rust.rs:99-116 | `gen_service_callers` appends one stub line per rpc, in order |
| CodegenRust.GenServiceHandlers | src/codegen_rust.rs:118-135 | `gen_service_handlers` appends the same stub lines |
| CodegenRust.Gen | src/codegen_rust.rs:38-52 | `gen` appends all messages first, then every service's stubs, services in order |
| CodegenRust.FieldTypeToRustStr | src/codegen_rust.rs:11-22 | `string` is exactly the type `&[u8]`; the integer types are `i` for signed or `u` for unsigned, followed by their width 32 or 64 |
| CodegenRust.ScalarTypeNames | src/codegen_rust.rs:11-22 | on scalar types the back end's table agrees with the lowering's except on `string`, which is `&[u8]` here and `String` in the lowering |
| CodegenRust.ParsedMessageRustOk | src/codegen_rust.rs:83-89 | a message the parser builds has only scalar or message field types, so `unimplemented!()` is never reached |
| CodegenRust.MessageLinesPreOrder | src/codegen_rust.rs:93-95 | `gen_message` writes exactly one flat struct per message of the nesting, parent before children, children in order |
| CodegenRust.MessagesLinesPreOrder | src/codegen_rust.rs:54-97 | `gen_messages` writes the structs of all messages and their nested messages, in pre-order |
| CodegenRust.StructWriteLines | src/codegen_rust.rs:138-160 | `test_struct_write`: the output is `pub struct TestMessage {`, `pub page_number: i32,`, `}` |
| CodegenRust.StructWriteStruct | src/codegen_rust.rs:152-158 | the struct of `TestMessage` with its one `i32` field |
| CodegenRust.RpcWriteLines | src/codegen_rust.rs:162-187 | `test_rpc_write_caller`: an empty struct, then `pub fn doer(arg: TestMessage) -> TestMessage { todo!() }` |
| CodegenRust.RpcWriteStruct | src/codegen_rust.rs:178-184 | the empty struct `TestMessage` is two lines |
| CodegenRust.RpcWriteStub | src/codegen_rust.rs:178-184 | the stub line of the `doer` rpc |
| CodegenCsharp.TeraFunc | src/codegen_csharp.rs:24-26 | `tera_func` returns its `name` argument unchanged |
| CodegenCsharp.Tera.RegisterFunction | src/codegen_csharp.rs:78-80 | registering a function adds its name |
| CodegenCsharp.Tera.RenderTo | src/codegen_csharp.rs:42 | a render appends one event holding the template, the context and the names of the functions registered |
| CodegenCsharp.RenderEnum | src/codegen_csharp.rs:44-52 | `render_enum` renders `gen-enum.cs.tera` once, with `enum` bound to the enum |
| CodegenCsharp.RenderService | src/codegen_csharp.rs:53-61 | `render_service` renders `gen-service.cs.tera` once, with `service` bound to the service |
| CodegenCsharp.RenderMsg | src/codegen_csharp.rs:28-43 | `render_msg` renders the nested messages recursively, then the nested enums, then the message, each from a clone of the context |
| CodegenCsharp.Gen | src/codegen_csharp.rs:65-95 | `gen` registers `fmt_struct`, `fmt_var` and `fmt_type`, then renders `gen-builtin.cs` first, then every message with its nested nodes, then the enums, then the services, each from an empty context |
| CodegenCsharp.PostOrderElems | src/codegen_csharp.rs:34-42 | the renders of a message are exactly the message and the nodes nested in it |
| CodegenCsharp.PostOrderLength | src/codegen_csharp.rs:28-43 | `render_msg` renders exactly as many times as the message has message and enum nodes, itself included |
| CodegenCsharp.ChildrenBeforeParent | src/codegen_csharp.rs:28-43 | a message is rendered last, after exactly the nodes nested in it, and it is not nested in itself |
| CodegenCsharp.GenContexts | src/codegen_csharp.rs:78-92 | every render of `gen` sees exactly the functions `fmt_struct`, `fmt_var` and `fmt_type`; every render after the builtin sees exactly one key matching its template, bound to the node rendered |
| CodegenCsharp.SingleKey | src/codegen_csharp.rs:36-41 | a context that starts empty holds exactly one key at each render |
| RustGenBuiltin.FindStructBounds | templates/rust-gen-builtin.rs:50-62 | None exactly when the buffer is empty, does not start with `{`, or has no `}` after it; otherwise the length up to and including the first `}`, at least 2 and with no `}` before it |
| Pipeline.ParsedTreeFitsBackEnds | src/serializable_tree.rs:54-65 | a parsed tree resolves every id, has no `Undef` type and no enums, interns each text once, and fits the Rust back end, so neither back end nor the lowering aborts on it |

## Left out

- `src/main.rs` is not part of this model. It holds command-line parsing, directory walking and file I/O. Its call of the Rust back end does not match that back end's signature.
- `src/codegen.rs` is not part of this model. It is an older copy of the Rust back end, not compiled into the crate.
- The example servers and `templates/csharp/gen-builtin.cs` are not modelled. They use sockets, threads, serialization libraries and floating point.
- Of `templates/rust-gen-builtin.rs`, only `find_struct_bounds` is modelled. The rest is trait declarations and `serde_json` calls.
- Tera's template loading and rendering are not modelled. A render is an event holding the template name, its context and the names of the functions registered. Every registered name is bound to `tera_func`, so the engine keeps the names only.
- The `process::exit` on a template-loading failure is not modelled.
- The `convert_case` casing helpers are parameters.
- Writer errors (`std::io::Error`, `?` on `writeln!`) are not modelled: writing always succeeds.
- The unwraps of the lowering and of the Rust back end are preconditions, and `Pipeline.ParsedTreeFitsBackEnds` discharges them for parsed trees.
- `try_next_char` and `ParseTree.message_cache` are left out. Nothing in the core calls or fills them.
- The parse error messages are made up. The source aborts and has none.
- Lexer.IsNumeric: Rust's `char::is_numeric` is modelled exactly on U+0000 to U+00FF and as false above, because the full Unicode table is not part of this model.
- The parser tests are stated on the grammar functions, which `Parsing.Parser`'s methods are proved to follow, rather than on a running `Parser` object.
- CodegenRust.StructWriteLines: the Rust tests compare one output string. The model states it as the list of lines, each followed by a newline. The tree is written out by hand as the one the parser builds for the test text. It is not derived by parsing that text.
- CodegenRust.RpcWriteLines: states its test the same way as StructWriteLines.
- CodegenCsharp.PostOrderElems: "each node rendered once" is stated as the renders being the post-order traversal of the tree, whose elements are exactly the nested nodes, together with CodegenCsharp.PostOrderLength, by which there are as many renders as nodes. Two equal sub-messages are equal values, so a count per distinct value is not stated.
- Grammar.PField and the other `P*` grammar functions: their own contracts state only that they consume tokens. What they parse is stated by the `GrammarFacts` lemmas (`FieldSyntax`, `MessageBodyItems`, `RpcSyntax`, `ServiceBodyItems`, `SyntaxSyntax`, `ItemsNext` and the others) and the examples.
- Parsing.Parser: `linenum` and `colnum` are `u32` in the source and unbounded `nat` here. Their wrap-around on more than 2^32 characters is not modelled, because no output of the core depends on the counters.
