/**
 * The string interner of src/intern.rs: an insertion-ordered set of strings
 * (an `IndexSet<String>`) whose positions are the ids handed out to the parser.
 */
module Intern {
  import opened Wrappers

  /** A dense, zero-based handle into one interner. */
  type StringId = nat

  /** The entries of an `IndexSet` are pairwise distinct. */
  ghost predicate Unique(entries: seq<string>) {
    forall i, j :: 0 <= i < j < |entries| ==> entries[i] != entries[j]
  }

  /** `IndexSet::get_index_of`: the position of `s`, if it is present. */
  function IndexOf(entries: seq<string>, s: string): (r: Option<StringId>)
    ensures r.None? <==> s !in entries
    ensures r.Some? ==> r.value < |entries| && entries[r.value] == s
    ensures r.Some? ==> forall k :: 0 <= k < r.value ==> entries[k] != s
  {
    if entries == [] then None
    else if entries[0] == s then Some(0)
    else match IndexOf(entries[1..], s)
      case None => None
      case Some(i) => Some(i + 1)
  }

  /** `StringIntern::get_str`: the text behind `id`, absent outside the assigned range. */
  function Lookup(entries: seq<string>, id: StringId): (r: Option<string>)
    ensures r.None? <==> id >= |entries|
    ensures r.Some? ==> r.value == entries[id]
  {
    if id < |entries| then Some(entries[id]) else None
  }

  /**
   * `StringIntern::get_id` as a function of the entries before the call:
   * the entries after it and the id handed out.
   */
  function Interned(entries: seq<string>, s: string): (r: (seq<string>, StringId))
    ensures r.1 < |r.0| && r.0[r.1] == s
    ensures s in entries ==> r.0 == entries
    ensures s !in entries ==> r == (entries + [s], |entries|)
  {
    match IndexOf(entries, s)
    case Some(i) => (entries, i)
    case None => (entries + [s], |entries|)
  }

  /** get_id of a present string returns its existing index and leaves the set unchanged. */
  lemma InternPresent(entries: seq<string>, s: string, i: nat)
    requires Unique(entries) && i < |entries| && entries[i] == s
    ensures Interned(entries, s) == (entries, i)
  {
  }

  /** get_id of a new string returns the previous length and appends the string. */
  lemma InternAbsent(entries: seq<string>, s: string)
    requires s !in entries
    ensures Interned(entries, s) == (entries + [s], |entries|)
  {
  }

  /** get_str(get_id(s)) == Some(s), and the id is inside the dense range. */
  lemma InternRoundTrip(entries: seq<string>, s: string)
    ensures Interned(entries, s).1 < |Interned(entries, s).0|
    ensures Lookup(Interned(entries, s).0, Interned(entries, s).1) == Some(s)
  {
  }

  /**
   * get_id only ever appends: every earlier entry keeps its id and text,
   * at most one entry is added, and the entries stay pairwise distinct.
   */
  lemma InternExtends(entries: seq<string>, s: string)
    ensures entries <= Interned(entries, s).0
    ensures |Interned(entries, s).0| <= |entries| + 1
    ensures Unique(entries) ==> Unique(Interned(entries, s).0)
  {
  }

  /** The interner after an operation extends the one before and stays a set. */
  ghost predicate Grows(names: seq<string>, names': seq<string>) {
    names <= names' && (Unique(names) ==> Unique(names'))
  }

  lemma GrowsTrans(a: seq<string>, b: seq<string>, c: seq<string>)
    requires Grows(a, b) && Grows(b, c)
    ensures Grows(a, c)
  {
  }

  lemma InternGrows(names: seq<string>, s: string)
    ensures Grows(names, Interned(names, s).0)
    ensures Interned(names, s).1 < |Interned(names, s).0|
    ensures Interned(names, s).0[Interned(names, s).1] == s
  {
    InternExtends(names, s);
    InternRoundTrip(names, s);
  }

  /** Interns `ss` in order; the entries after all of them and the ids handed out. */
  function InternAll(entries: seq<string>, ss: seq<string>): (r: (seq<string>, seq<StringId>))
    ensures |r.1| == |ss|
    decreases |ss|
  {
    if ss == [] then (entries, [])
    else
      var (e1, id) := Interned(entries, ss[0]);
      var (e2, ids) := InternAll(e1, ss[1..]);
      (e2, [id] + ids)
  }

  /**
   * After interning any sequence of strings, every id looks up to the string
   * it was handed out for, so equal strings get equal ids and distinct
   * strings distinct ids; earlier entries are kept and the set stays unique.
   */
  lemma {:induction false} InternAllConsistent(entries: seq<string>, ss: seq<string>)
    requires Unique(entries)
    ensures var (e, ids) := InternAll(entries, ss);
      Unique(e) && entries <= e &&
      forall i :: 0 <= i < |ss| ==> ids[i] < |e| && e[ids[i]] == ss[i]
    ensures var (e, ids) := InternAll(entries, ss);
      forall i, j :: 0 <= i < |ss| && 0 <= j < |ss| ==> (ids[i] == ids[j] <==> ss[i] == ss[j])
    decreases |ss|
  {
    if ss != [] {
      var (e1, id) := Interned(entries, ss[0]);
      InternExtends(entries, ss[0]);
      InternRoundTrip(entries, ss[0]);
      InternAllConsistent(e1, ss[1..]);
      var (e, ids) := InternAll(entries, ss);
      assert ids == [id] + InternAll(e1, ss[1..]).1;
      assert e == InternAll(e1, ss[1..]).0;
      assert e1 <= e;
      assert ids[0] < |e| && e[ids[0]] == ss[0] by {
        assert e[id] == e1[id];
      }
      forall i | 0 <= i < |ss|
        ensures ids[i] < |e| && e[ids[i]] == ss[i]
      {
        if i > 0 {
          assert ids[i] == InternAll(e1, ss[1..]).1[i - 1];
          assert ss[i] == ss[1..][i - 1];
        }
      }
    }
  }

  /** The interner a parser owns: `StringIntern`, whose index set is `entries`. */
  class StringIntern {
    var entries: seq<string>

    ghost predicate Valid()
      reads this
    {
      Unique(entries)
    }

    constructor ()
      ensures Valid() && entries == []
    {
      entries := [];
    }

    /** Returns the id of `s`, appending it first when it is new. */
    method GetId(s: string) returns (id: StringId)
      requires Valid()
      modifies this
      ensures Valid()
      ensures (entries, id) == Interned(old(entries), s)
    {
      InternExtends(entries, s);
      match IndexOf(entries, s) {
        case Some(i) =>
          id := i;
        case None =>
          id := |entries|;
          entries := entries + [s];
      }
    }

    /** The text behind `id`, absent outside the assigned range. */
    function GetStr(id: StringId): (r: Option<string>)
      reads this
      ensures r.None? <==> id >= |entries|
      ensures r.Some? ==> r.value == entries[id]
    {
      Lookup(entries, id)
    }
  }
}
