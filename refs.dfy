/** Lazy references (src/coersion.rs:20-43). An `ObjRef<T, I>` records only the identifier
    of the entity of type `T` it points at; it never holds the entity itself, and building one
    talks to nobody. The client handle a reference carries in the source is passed explicitly
    to `coerce` in this model (see module Coersion). */
module Refs {
  import opened Keys
  import opened Errors

  datatype ObjRef<T, I> = ObjRef(identifier: I)

  /** `ObjRef::new` applied to every key of a key list, as the `link` functions do with
      `iter().map(..).collect()`: the same keys, in the same order. */
  function RefsOf<T>(keys: seq<Key>): (refs: seq<ObjRef<T, Key>>)
    ensures |refs| == |keys|
    ensures forall i :: 0 <= i < |keys| ==> refs[i].identifier == keys[i]
  {
    if keys == [] then [] else RefsOf<T>(keys[..|keys| - 1]) + [ObjRef(keys[|keys| - 1])]
  }

  /** The identifiers a reference list points at. */
  function KeysOf<T, I>(refs: seq<ObjRef<T, I>>): (keys: seq<I>)
    ensures |keys| == |refs|
    ensures forall i :: 0 <= i < |refs| ==> keys[i] == refs[i].identifier
  {
    if refs == [] then [] else KeysOf(refs[..|refs| - 1]) + [refs[|refs| - 1].identifier]
  }

  /** An optional relation key becomes an optional reference. */
  function OptRef<T>(key: Option<Key>): (ref: Option<ObjRef<T, Key>>)
    ensures ref.Some? <==> key.Some?
    ensures ref.Some? ==> ref.value.identifier == key.value
  {
    match key
    case None => None
    case Some(k) => Some(ObjRef(k))
  }

  function OptKey<T, I>(ref: Option<ObjRef<T, I>>): (key: Option<I>)
    ensures key.Some? <==> ref.Some?
    ensures key.Some? ==> key.value == ref.value.identifier
  {
    match ref
    case None => None
    case Some(r) => Some(r.identifier)
  }

  /** Building references from keys loses nothing, and a reference list is determined by its
      keys. */
  lemma {:induction false} RefsRoundTrip<T>(keys: seq<Key>, refs: seq<ObjRef<T, Key>>)
    ensures KeysOf(RefsOf<T>(keys)) == keys
    ensures RefsOf<T>(KeysOf(refs)) == refs
    decreases |keys| + |refs|
  {
    if keys != [] {
      RefsRoundTrip<T>(keys[..|keys| - 1], []);
    }
    if refs != [] {
      RefsRoundTrip<T>([], refs[..|refs| - 1]);
      assert refs == refs[..|refs| - 1] + [ObjRef(refs[|refs| - 1].identifier)];
    }
  }

  /** Mapping keys to references commutes with concatenation, so a reference list built from
      `a + b` starts with the references built from `a`. */
  lemma {:induction false} RefsOfAppend<T>(a: seq<Key>, b: seq<Key>)
    ensures RefsOf<T>(a + b) == RefsOf<T>(a) + RefsOf<T>(b)
  {
    if b != [] {
      calc {
        RefsOf<T>(a + b);
        { assert (a + b)[..|a + b| - 1] == a + b[..|b| - 1]; }
        RefsOf<T>(a + b[..|b| - 1]) + [ObjRef(b[|b| - 1])];
        { RefsOfAppend<T>(a, b[..|b| - 1]); }
        RefsOf<T>(a) + RefsOf<T>(b[..|b| - 1]) + [ObjRef(b[|b| - 1])];
      }
    } else {
      assert a + b == a;
    }
  }

  lemma OptRefRoundTrip<T>(key: Option<Key>, ref: Option<ObjRef<T, Key>>)
    ensures OptKey(OptRef<T>(key)) == key
    ensures OptRef<T>(OptKey(ref)) == ref
  {
  }
}
