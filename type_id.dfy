/**
 * Type identifiers: a name, the five primitive type names, and the
 * namespace prefix applied to every other name.
 */
module TypeIds {

  /** The names of the primitive types. */
  const PrimitiveTypes: seq<string> := ["bool", "int", "float", "char", "string"]

  /** Whether a type name is one of the primitive types. */
  predicate IsPrimitiveName(id: string) {
    id in PrimitiveTypes
  }

  /** What prefixing a name yields: primitive names are global and stay as
      they are; any other name gets the prefix in front. */
  function Prefixed(prefix: string, id: string): string {
    if IsPrimitiveName(id) then id else prefix + id
  }

  /** Exactly the five names bool, int, float, char and string are primitive. */
  lemma PrimitiveNames(id: string)
    ensures IsPrimitiveName(id) <==>
              id == "bool" || id == "int" || id == "float" || id == "char" || id == "string"
  {
  }

  /** A primitive name is never prefixed. */
  lemma PrefixKeepsPrimitive(prefix: string, id: string)
    requires IsPrimitiveName(id)
    ensures Prefixed(prefix, id) == id
  {
  }

  /** A non-primitive name is the suffix of the prefixed name, and the
      prefix stands before it. */
  lemma PrefixNonPrimitive(prefix: string, id: string)
    requires !IsPrimitiveName(id)
    ensures |Prefixed(prefix, id)| == |prefix| + |id|
    ensures Prefixed(prefix, id)[..|prefix|] == prefix
    ensures Prefixed(prefix, id)[|prefix|..] == id
  {
  }

  /** Whatever the name, the name is a suffix of the prefixed name. */
  lemma PrefixEndsWithId(prefix: string, id: string)
    ensures |id| <= |Prefixed(prefix, id)|
    ensures Prefixed(prefix, id)[|Prefixed(prefix, id)| - |id|..] == id
  {
  }

  /** The empty prefix changes nothing. */
  lemma PrefixEmpty(id: string)
    ensures Prefixed("", id) == id
  {
  }

  /** Two prefixes applied in turn act as their concatenation, the later one
      outermost, as long as the first step does not produce a primitive name. */
  lemma PrefixCompose(p1: string, p2: string, id: string)
    requires !IsPrimitiveName(p1 + id)
    ensures Prefixed(p2, Prefixed(p1, id)) == Prefixed(p2 + p1, id)
  {
    if !IsPrimitiveName(id) {
      assert p2 + (p1 + id) == (p2 + p1) + id;
    }
  }

  /** The side condition of `PrefixCompose` is needed: prefixing a name can
      spell a primitive name, which later prefixes then leave alone. */
  lemma PrefixCanSpellPrimitive()
    ensures Prefixed("b", "ool") == "bool"
    ensures Prefixed("m::", Prefixed("b", "ool")) != Prefixed("m::b", "ool")
  {
    assert "b" + "ool" == "bool";
    assert "m::b" + "ool" == "m::bool";
    assert Prefixed("m::b", "ool") == "m::bool";
  }

  /** A type identifier; `prefix` renames it in place. */
  class TypeId {
    var id: string

    /** `TypeId::new`, and the conversion from a string: the name is stored
        as given. */
    constructor (id: string)
      ensures this.id == id
    {
      this.id := id;
    }

    /** The conversion from a string slice. */
    static method FromStr(s: string) returns (t: TypeId)
      ensures fresh(t)
      ensures t.id == s
    {
      t := new TypeId(s);
    }

    /** The stored name. */
    function Id(): string
      reads this
    {
      id
    }

    /** Whether this identifier names a primitive type. */
    predicate IsPrimitive(): (b: bool)
      reads this
      ensures b <==> id == "bool" || id == "int" || id == "float" || id == "char" || id == "string"
    {
      IsPrimitiveName(id)
    }

    /** `Rename::prefix`: put the namespace prefix in front of a
        non-primitive name. */
    method Prefix(prefix: string)
      modifies this
      ensures id == Prefixed(prefix, old(id))
    {
      if !IsPrimitiveName(id) {
        id := prefix + id;
      }
    }
  }
}
