/** The attribute map every node and way carries: an unordered string to
    string dictionary.  Its iteration order is unspecified, so nothing here
    orders the keys. */
module Attributes {

  type AttributeMap = map<string, string>

  function AttributeCount(m: AttributeMap): nat {
    |m.Keys|
  }

  predicate HasAttribute(m: AttributeMap, key: string) {
    key in m
  }

  /** The stored value, or the empty string when the key is absent. */
  function GetAttribute(m: AttributeMap, key: string): string {
    if key in m then m[key] else ""
  }

  /** `attributes[key] = value`: insert or overwrite. */
  function Assign(m: AttributeMap, key: string, value: string): AttributeMap {
    m[key := value]
  }

  /** The key reached by stepping an iterator `i` times from the start of the
      map, or "" when `i` is out of range.  Which key each step visits is the
      map's own business, so the walk picks any key not yet visited. */
  method GetAttributeKey(m: AttributeMap, i: nat) returns (key: string)
    ensures i >= AttributeCount(m) ==> key == ""
    ensures i < AttributeCount(m) ==> HasAttribute(m, key)
  {
    if i >= |m.Keys| {
      return "";
    }
    var unvisited := m.Keys;
    var j := 0;
    while j < i
      invariant 0 <= j <= i
      invariant unvisited <= m.Keys
      invariant |unvisited| == |m.Keys| - j
    {
      var k :| k in unvisited;
      unvisited := unvisited - {k};
      j := j + 1;
    }
    key :| key in unvisited;
  }

  /** Reading back after `attributes[key] = value`: the written key is present
      with the written value, every other key reads as before, and the count
      grows by one exactly when the key was new. */
  lemma ReadAfterAssign(m: AttributeMap, key: string, value: string, other: string)
    ensures HasAttribute(Assign(m, key, value), other) <==> other == key || HasAttribute(m, other)
    ensures GetAttribute(Assign(m, key, value), other)
         == if other == key then value else GetAttribute(m, other)
    ensures AttributeCount(Assign(m, key, value))
         == AttributeCount(m) + if HasAttribute(m, key) then 0 else 1
  {
    var m' := Assign(m, key, value);
    if key in m {
      assert m'.Keys == m.Keys;
    } else {
      assert m'.Keys == m.Keys + {key};
    }
  }

  /** An absent key reads as "", but so can a present one: the empty string
      does not tell absence from an empty value. */
  lemma EmptyValueAmbiguous(m: AttributeMap, key: string)
    ensures !HasAttribute(m, key) ==> GetAttribute(m, key) == ""
    ensures GetAttribute(m, key) != "" ==> HasAttribute(m, key)
    ensures HasAttribute(m[key := ""], key) && GetAttribute(m[key := ""], key) == ""
  {
  }
}
