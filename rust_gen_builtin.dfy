/**
 * `find_struct_bounds` of templates/rust-gen-builtin.rs: the length of the
 * JSON object at the front of a buffer, found by scanning for the first
 * closing brace (nesting is not tracked).
 */
module RustGenBuiltin {
  import opened Wrappers

  type byte = x: int | 0 <= x < 0x100

  /** `'{'.to_ascii_lowercase() as u8`: lower-casing leaves a brace alone. */
  const OpenBrace: byte := 0x7B

  /** `'}'.to_ascii_lowercase() as u8`. */
  const CloseBrace: byte := 0x7D

  /** No closing brace among `r[from..to]`. */
  predicate NoCloseIn(r: seq<byte>, from: nat, to: nat)
    requires from <= to <= |r|
  {
    forall k :: from <= k < to ==> r[k] != CloseBrace
  }

  /**
   * `None` exactly when the buffer does not start with `{` or has no `}` after
   * it; otherwise the bounds end just past the first `}` after the opening one.
   */
  method FindStructBounds(r: seq<byte>) returns (res: Option<nat>)
    ensures res.None? <==> (|r| == 0 || r[0] != OpenBrace || NoCloseIn(r, 1, |r|))
    ensures res.Some? ==>
      && 2 <= res.value <= |r|
      && r[0] == OpenBrace && r[res.value - 1] == CloseBrace
      && NoCloseIn(r, 1, res.value - 1)
  {
    if 0 < |r| && r[0] == OpenBrace {
      var count := 1;
      for i := 1 to |r|
        invariant count == i
        invariant NoCloseIn(r, 1, i)
      {
        count := count + 1;
        if CloseBrace == r[i] {
          return Some(count);
        }
      }
    }
    return None;
  }
}
