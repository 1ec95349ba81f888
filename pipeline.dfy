/**
 * How the stages fit together: a tree parsed from source text meets what
 * the lowering of src/serializable_tree.rs and the Rust back end of
 * src/codegen_rust.rs demand of their input, so their `unwrap()` and
 * `unimplemented!()` branches are never reached on it.
 */
module Pipeline {
  import opened Intern
  import opened Ast
  import opened Grammar
  import opened GrammarFacts
  import CodegenRust

  /**
   * A successful parse resolves every id in its own interner, leaves no
   * `Undef` type, builds no enum, interns each text once, and gives the Rust
   * back end only scalar and message field types.
   */
  lemma ParsedTreeFitsBackEnds(s: seq<char>)
    requires ParseText(s).Ok?
    ensures var t := ParseText(s).value;
      && TreeOk(t)
      && t.enums == []
      && Unique(t.intern)
      && CodegenRust.RustTreeOk(t)
  {
    var t := ParseText(s).value;
    ParseTextValue(s);
    forall m | m in t.messages
      ensures CodegenRust.RustMessageOk(m, |t.intern|)
    {
      CodegenRust.ParsedMessageRustOk(m, |t.intern|);
    }
  }
}
