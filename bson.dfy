/** The part of BSON the harness inspects: documents as ordered lists of
    key/value elements, the value types the harness writes or compares, and
    the first-match searches that `bson.Raw.Lookup` and the event-marker
    extraction perform over a document's elements. */
module Bson {

  datatype Option<+T> = None | Some(value: T)

  /** A BSON value. `Int` is a Go `int` as the driver encodes it (ids, `k`,
      the `1` of an `$unset`); `Int64` is a Go `int64` (markers). */
  datatype Value =
    | Null
    | Int(i: int)
    | Int64(i: int)
    | Str(s: string)
    | ObjectId(oid: nat)
    | Doc(elems: seq<Element>)

  /** One key/value element of a document, in document order. */
  datatype Element = Element(key: string, value: Value)

  predicate HasPrefix(s: string, prefix: string) {
    |prefix| <= |s| && s[..|prefix|] == prefix
  }

  /** `bson.Raw.Lookup(key)` with one key: the value of the first element
      named `key`; `None` stands for the zero `RawValue` (type 0). */
  function Lookup(doc: seq<Element>, key: string): Option<Value> {
    if doc == [] then None
    else if doc[0].key == key then Some(doc[0].value)
    else Lookup(doc[1..], key)
  }

  /** `Lookup` finds nothing exactly when no element has the key, and
      otherwise the value of the first element that has it. */
  lemma {:induction false} LookupFirst(doc: seq<Element>, key: string)
    ensures Lookup(doc, key).None? <==> forall j :: 0 <= j < |doc| ==> doc[j].key != key
    ensures Lookup(doc, key).Some? ==>
      exists i :: 0 <= i < |doc| && doc[i] == Element(key, Lookup(doc, key).value) &&
                  forall j :: 0 <= j < i ==> doc[j].key != key
  {
    if doc != [] && doc[0].key != key {
      LookupFirst(doc[1..], key);
      if Lookup(doc, key).Some? {
        var i :| 0 <= i < |doc[1..]| && doc[1..][i] == Element(key, Lookup(doc, key).value) &&
                 forall j :: 0 <= j < i ==> doc[1..][j].key != key;
        assert doc[i + 1] == doc[1..][i];
        assert forall j :: 1 <= j < i + 1 ==> doc[j] == doc[1..][j - 1];
      } else {
        assert forall j :: 1 <= j < |doc| ==> doc[j] == doc[1..][j - 1];
      }
    }
  }

  /** The first element whose key starts with `prefix`. */
  function FirstPrefixed(doc: seq<Element>, prefix: string): Option<Element> {
    if doc == [] then None
    else if HasPrefix(doc[0].key, prefix) then Some(doc[0])
    else FirstPrefixed(doc[1..], prefix)
  }

  /** `FirstPrefixed` finds nothing exactly when no key has the prefix, and
      otherwise the first element whose key has it. */
  lemma {:induction false} FirstPrefixedFirst(doc: seq<Element>, prefix: string)
    ensures FirstPrefixed(doc, prefix).None? <==> forall j :: 0 <= j < |doc| ==> !HasPrefix(doc[j].key, prefix)
    ensures FirstPrefixed(doc, prefix).Some? ==>
      exists i :: 0 <= i < |doc| && doc[i] == FirstPrefixed(doc, prefix).value &&
                  HasPrefix(doc[i].key, prefix) && forall j :: 0 <= j < i ==> !HasPrefix(doc[j].key, prefix)
  {
    if doc != [] && !HasPrefix(doc[0].key, prefix) {
      FirstPrefixedFirst(doc[1..], prefix);
      if FirstPrefixed(doc, prefix).Some? {
        var i :| 0 <= i < |doc[1..]| && doc[1..][i] == FirstPrefixed(doc, prefix).value &&
                 HasPrefix(doc[1..][i].key, prefix) && forall j :: 0 <= j < i ==> !HasPrefix(doc[1..][j].key, prefix);
        assert doc[i + 1] == doc[1..][i];
        assert forall j :: 1 <= j < i + 1 ==> doc[j] == doc[1..][j - 1];
      } else {
        assert forall j :: 1 <= j < |doc| ==> doc[j] == doc[1..][j - 1];
      }
    }
  }
}
