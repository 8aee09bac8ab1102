/** Order-preserving removal of elements by identity. Every object the map
    engine removes (a feature from a source, an overlay or an interaction from
    the map, a click listener) is removed by its identity, which the model
    carries as a natural-number uid. */
module Seqs {

  /** The elements of `s` whose key is not in `ids`, in their original order. */
  function Drop<T(!new)>(s: seq<T>, key: T -> nat, ids: set<nat>): (r: seq<T>)
    ensures |r| <= |s|
    ensures forall x :: x in r <==> x in s && key(x) !in ids
    ensures forall k :: 0 <= k < |r| ==> key(r[k]) !in ids
  {
    if s == [] then []
    else (if key(s[0]) in ids then [] else [s[0]]) + Drop(s[1..], key, ids)
  }

  /** Removing nothing changes nothing. */
  lemma {:induction false} DropNothing<T(!new)>(s: seq<T>, key: T -> nat, ids: set<nat>)
    requires forall k :: 0 <= k < |s| ==> key(s[k]) !in ids
    ensures Drop(s, key, ids) == s
  {
    if s != [] {
      DropNothing(s[1..], key, ids);
    }
  }

  /** Removing in two rounds is removing the union at once, so a loop that
      removes one identity per iteration computes a single `Drop`. */
  lemma {:induction false} DropTwice<T(!new)>(s: seq<T>, key: T -> nat, a: set<nat>, b: set<nat>)
    ensures Drop(Drop(s, key, a), key, b) == Drop(s, key, a + b)
  {
    if s != [] {
      DropTwice(s[1..], key, a, b);
      var head := if key(s[0]) in a then [] else [s[0]];
      assert Drop(s, key, a) == head + Drop(s[1..], key, a);
      DropAppend(head, Drop(s[1..], key, a), key, b);
    }
  }

  /** `Drop` distributes over concatenation. */
  lemma {:induction false} DropAppend<T(!new)>(s: seq<T>, t: seq<T>, key: T -> nat, ids: set<nat>)
    ensures Drop(s + t, key, ids) == Drop(s, key, ids) + Drop(t, key, ids)
  {
    if s == [] {
      assert s + t == t;
    } else {
      assert (s + t)[1..] == s[1..] + t;
      DropAppend(s[1..], t, key, ids);
    }
  }
}
