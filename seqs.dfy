/** Helpers on sequences used by several scripts. */
module Seqs {

  /** No element occurs twice, as in a directory listing or a set turned
      into a list. */
  predicate Distinct<T(==)>(s: seq<T>)
  {
    forall i, j :: 0 <= i < j < |s| ==> s[i] != s[j]
  }

  /** The elements of `s`, as a set. */
  function Elems<T>(s: seq<T>): set<T>
  {
    set x | x in s
  }

  /** One more element of a list adds it to the elements seen so far. */
  lemma ElemsPrefix<T>(s: seq<T>, i: nat)
    requires i < |s|
    ensures Elems(s[..i + 1]) == Elems(s[..i]) + {s[i]}
  {
    assert s[..i + 1] == s[..i] + [s[i]];
  }

  /** In a list without repetitions no element occurs before its place. */
  lemma DistinctPrefix<T>(s: seq<T>, i: nat)
    requires Distinct(s) && i < |s|
    ensures s[i] !in s[..i]
  {
  }

  /** The elements of a set, listed once each in some order: the order in
      which Python happens to iterate a set or a directory listing. */
  method Enumerate<T>(s: set<T>) returns (r: seq<T>)
    ensures Distinct(r) && Elems(r) == s
  {
    r := [];
    var rest := s;
    while rest != {}
      invariant Distinct(r)
      invariant Elems(r) + rest == s && Elems(r) !! rest
      decreases rest
    {
      var x :| x in rest;
      rest := rest - {x};
      ghost var before := r;
      r := r + [x];
      assert Elems(r) == Elems(before) + {x};
      assert Distinct(r) by {
        forall i, j | 0 <= i < j < |r| ensures r[i] != r[j] {
          if j == |before| {
            assert r[i] in Elems(before);
          } else {
            assert r[i] == before[i] && r[j] == before[j];
          }
        }
      }
    }
  }

  /** The parts one after the other, as a loop that appends each part's
      elements produces them. */
  function Flatten<T>(parts: seq<seq<T>>): seq<T>
  {
    if parts == [] then [] else Flatten(parts[..|parts| - 1]) + parts[|parts| - 1]
  }

  /** Appending is associative. */
  lemma AppendAssoc<T>(a: seq<T>, b: seq<T>, c: seq<T>)
    ensures (a + b) + c == a + (b + c)
  {
  }

  /** One more part adds its elements at the end. */
  lemma FlattenSnoc<T>(parts: seq<seq<T>>, x: seq<T>)
    ensures Flatten(parts + [x]) == Flatten(parts) + x
  {
    assert (parts + [x])[..|parts|] == parts;
  }

  /** Flattening two lists of parts one after the other gives the elements of
      the first list, then those of the second. */
  lemma {:induction false} FlattenAppend<T>(a: seq<seq<T>>, b: seq<seq<T>>)
    ensures Flatten(a + b) == Flatten(a) + Flatten(b)
    decreases |b|
  {
    if b == [] {
      assert a + b == a;
    } else {
      var init, x := b[..|b| - 1], b[|b| - 1];
      assert b == init + [x];
      assert a + b == (a + init) + [x];
      FlattenAppend(a, init);
      FlattenSnoc(a + init, x);
      FlattenSnoc(init, x);
    }
  }

  /** An element of the flattened list is an element of one of the parts,
      and every element of every part is in it. */
  lemma {:induction false} FlattenMember<T>(parts: seq<seq<T>>, e: T)
    ensures e in Flatten(parts) <==> exists k :: 0 <= k < |parts| && e in parts[k]
  {
    if parts != [] {
      var n := |parts| - 1;
      var init := parts[..n];
      FlattenMember(init, e);
      assert Flatten(parts) == Flatten(init) + parts[n];
      if e in Flatten(init) {
        var k :| 0 <= k < n && e in init[k];
        assert parts[k] == init[k];
      }
      if exists k :: 0 <= k < |parts| && e in parts[k] {
        var k :| 0 <= k < |parts| && e in parts[k];
        if k < n {
          assert init[k] == parts[k];
        }
      }
    }
  }

  lemma MulSucc(w: nat, n: nat)
    ensures w * (n + 1) == w * n + w
  {
  }

  /** Parts of `w` elements each give `w` elements per part. */
  lemma {:induction false} FlattenLength<T>(parts: seq<seq<T>>, w: nat)
    requires forall k :: 0 <= k < |parts| ==> |parts[k]| == w
    ensures |Flatten(parts)| == w * |parts|
  {
    if parts != [] {
      FlattenLength(parts[..|parts| - 1], w);
      MulSucc(w, |parts| - 1);
    }
  }
}
