/** How a screen assembles the word list of one set (the `loadWords` shared by
    the study, list and matching screens), and how `Collections.shuffle`
    reorders a list. */
module WordSources {
  import opened Model

  /** The merged list: a user-created set is exactly its stored words; a
      shipped set is its asset words in file order followed by the stored
      words, with no de-duplication. `asset` is None when the asset could not
      be read (IOException) or decoded to null. */
  function MergedWords(userCreated: bool, asset: Option<seq<Word>>, stored: seq<Word>): seq<Word>
  {
    if userCreated then stored
    else (if asset.Some? then asset.value else []) + stored
  }

  lemma MergeUserCreated(asset: Option<seq<Word>>, stored: seq<Word>)
    ensures MergedWords(true, asset, stored) == stored
  {
  }

  /** A shipped set lists every asset word, then every stored word, both in
      their own order; a word present in both appears twice. */
  lemma MergeShipped(asset: seq<Word>, stored: seq<Word>)
    ensures var r := MergedWords(false, Some(asset), stored);
      && |r| == |asset| + |stored|
      && r[..|asset|] == asset
      && r[|asset|..] == stored
  {
  }

  /** A shipped set whose asset cannot be read shows the stored words alone. */
  lemma MergeAssetFailed(stored: seq<Word>)
    ensures MergedWords(false, None, stored) == stored
  {
  }

  /** Appending a stored word appends it to the merged list too, so a reload
      after an add shows exactly one more entry, at the end. */
  lemma MergeAfterAppend(userCreated: bool, asset: Option<seq<Word>>, stored: seq<Word>, w: Word)
    ensures MergedWords(userCreated, asset, stored + [w]) == MergedWords(userCreated, asset, stored) + [w]
  {
  }

  /** Collections.shuffle as the JDK performs it on a random-access list:
      for i from the size down to 2, swap position i-1 with a position drawn
      uniformly from [0, i). `rnd(k)` is the k-th value drawn from the random
      source; `% i` maps it into the drawn range. */
  method Shuffle<T>(s: seq<T>, rnd: nat -> nat) returns (r: seq<T>)
    ensures |r| == |s|
    ensures multiset(r) == multiset(s)
  {
    r := s;
    var i := |r|;
    while i > 1
      invariant 0 <= i <= |r| == |s|
      invariant multiset(r) == multiset(s)
    {
      var j := rnd(|s| - i) % i;
      r := r[i - 1 := r[j]][j := r[i - 1]];
      i := i - 1;
    }
  }

  function MapSeq<A, B>(f: A -> B, s: seq<A>): (r: seq<B>)
    ensures |r| == |s|
    ensures forall i :: 0 <= i < |s| ==> r[i] == f(s[i])
  {
    if s == [] then [] else [f(s[0])] + MapSeq(f, s[1..])
  }

  lemma {:induction false} MapSeqAppend<A, B>(f: A -> B, a: seq<A>, b: seq<A>)
    ensures MapSeq(f, a + b) == MapSeq(f, a) + MapSeq(f, b)
  {
    if a == [] {
      assert a + b == b;
    } else {
      assert (a + b)[1..] == a[1..] + b;
      MapSeqAppend(f, a[1..], b);
    }
  }

  /** An element of a list's multiset has a position in the list. */
  lemma IndexOf<A>(b: seq<A>, x: A) returns (j: int)
    requires x in multiset(b)
    ensures 0 <= j < |b| && b[j] == x
  {
    assert x in b;
    j :| 0 <= j < |b| && b[j] == x;
  }

  /** Taking the element at position j out of a list takes one copy of it
      out of the list's multiset. */
  lemma {:induction false} MultisetWithout<A>(b: seq<A>, j: int)
    requires 0 <= j < |b|
    ensures multiset(b) == multiset(b[..j] + b[j + 1..]) + multiset{b[j]}
  {
    assert b[..j + 1] == b[..j] + [b[j]];
    assert b == b[..j + 1] + b[j + 1..];
  }

  /** The projection of a list is the projection of the list without
      position j, plus the image of the element at j. */
  lemma {:induction false} MapSeqWithout<A, B>(f: A -> B, b: seq<A>, j: int)
    requires 0 <= j < |b|
    ensures multiset(MapSeq(f, b)) == multiset(MapSeq(f, b[..j] + b[j + 1..])) + multiset{f(b[j])}
  {
    var p, x, q := b[..j], b[j], b[j + 1..];
    assert b[..j + 1] == p + [x];
    assert b == b[..j + 1] + q;
    MapSeqAppend(f, p + [x], q);
    MapSeqAppend(f, p, [x]);
    assert MapSeq(f, [x]) == [f(x)];
    MapSeqAppend(f, p, q);
    var mp, mq := MapSeq(f, p), MapSeq(f, q);
    assert MapSeq(f, b) == (mp + [f(x)]) + mq;
    assert MapSeq(f, p + q) == mp + mq;
    assert multiset(MapSeq(f, b)) == multiset(mp) + multiset{f(x)} + multiset(mq);
  }

  /** Two lists with the same elements keep the same elements once the
      first element of one and an equal element of the other are taken out. */
  lemma {:induction false} RemoveMatched<A>(a: seq<A>, b: seq<A>, j: int)
    requires |a| > 0 && 0 <= j < |b| && b[j] == a[0] && multiset(a) == multiset(b)
    ensures multiset(a[1..]) == multiset(b[..j] + b[j + 1..])
  {
    assert a == [a[0]] + a[1..];
    MultisetWithout(b, j);
    var x, ra, rb := multiset{a[0]}, multiset(a[1..]), multiset(b[..j] + b[j + 1..]);
    assert ra + x == rb + x;
    assert ra == (ra + x) - x && rb == (rb + x) - x;
  }

  /** Taking out the first element of one list and an equal element of
      another: when the remainders have projections holding the same values,
      so do the full lists. */
  lemma {:induction false} MatchedRemovals<A, B>(f: A -> B, a: seq<A>, b: seq<A>, j: int)
    requires |a| > 0 && 0 <= j < |b| && a[0] == b[j]
    requires multiset(MapSeq(f, a[1..])) == multiset(MapSeq(f, b[..j] + b[j + 1..]))
    ensures multiset(MapSeq(f, a)) == multiset(MapSeq(f, b))
  {
    MapSeqWithout(f, a, 0);
    assert a[..0] + a[1..] == a[1..];
    MapSeqWithout(f, b, j);
  }

  /** Two lists holding the same elements, in any order, have projections
      holding the same values: a shuffle keeps every per-element attribute's
      multiset. */
  lemma {:induction false} MapPreservesPermutation<A, B>(f: A -> B, a: seq<A>, b: seq<A>)
    requires multiset(a) == multiset(b)
    ensures multiset(MapSeq(f, a)) == multiset(MapSeq(f, b))
    decreases |a|
  {
    if a == [] {
      assert |multiset(b)| == 0;
      assert b == [];
    } else {
      var j := IndexOf(b, a[0]);
      RemoveMatched(a, b, j);
      MapPreservesPermutation(f, a[1..], b[..j] + b[j + 1..]);
      MatchedRemovals(f, a, b, j);
    }
  }
}
