/** First-seen deduplication of a batch of utterances: keep the first
    occurrence of each value, drop later repeats, keep the order of first
    occurrences. */
module FirstSeen {
  import opened Sequences

  /** Reference definition, growing the input one element at a time from the
      left: the last element survives exactly when it did not occur earlier. */
  function Dedup<T(==, !new)>(s: seq<T>): (r: seq<T>)
    ensures |r| <= |s|
    ensures forall x :: x in r <==> x in s
    ensures NoDuplicates(r)
    decreases |s|
  {
    if |s| == 0 then []
    else
      var init := s[..|s| - 1];
      var p := Dedup(init);
      if s[|s| - 1] in init then p else p + [s[|s| - 1]]
  }

  /** The positions of `s` that hold the first occurrence of their value, in
      increasing order. */
  ghost function FirstIndices<T>(s: seq<T>): seq<nat>
    decreases |s|
  {
    if |s| == 0 then []
    else
      var init := s[..|s| - 1];
      var p := FirstIndices(init);
      if s[|s| - 1] in init then p else p + [|s| - 1]
  }

  /** The single pass of the source: walk the pool once, remembering the values
      already seen, and append each value the first time it shows up. */
  method DedupPool<T(==, !new)>(pool: seq<T>) returns (unique: seq<T>)
    ensures unique == Dedup(pool)
    ensures NoDuplicates(unique)
    ensures forall x :: x in unique <==> x in pool
  {
    var seen: set<T> := {};
    unique := [];
    var i := 0;
    while i < |pool|
      invariant 0 <= i <= |pool|
      invariant forall x :: x in seen <==> x in pool[..i]
      invariant unique == Dedup(pool[..i])
    {
      var x := pool[i];
      assert pool[..i + 1][..i] == pool[..i];
      if x !in seen {
        seen := seen + {x};
        unique := unique + [x];
      }
      i := i + 1;
    }
    assert pool[..|pool|] == pool;
  }

  /** Every position below `n` reads the same in `s` and in its prefix of
      length `n`, and so does every shorter prefix. */
  lemma PrefixAgrees<T>(s: seq<T>, n: nat)
    requires n <= |s|
    ensures forall i :: 0 <= i < n ==> s[..n][i] == s[i] && s[..n][..i] == s[..i]
  {
  }

  /** The first-occurrence positions are valid, strictly increasing, and each
      holds a value that does not occur before it. */
  lemma {:induction false} FirstIndicesAreFirst<T>(s: seq<T>)
    ensures forall k :: 0 <= k < |FirstIndices(s)| ==>
      FirstIndices(s)[k] < |s| && s[FirstIndices(s)[k]] !in s[..FirstIndices(s)[k]]
    ensures forall k, l :: 0 <= k < l < |FirstIndices(s)| ==> FirstIndices(s)[k] < FirstIndices(s)[l]
    decreases |s|
  {
    if |s| > 0 {
      var n := |s| - 1;
      FirstIndicesAreFirst(s[..n]);
      PrefixAgrees(s, n);
    }
  }

  /** Every position of `s` holding a value not seen before it is a
      first-occurrence position. */
  lemma {:induction false} FirstIndicesComplete<T>(s: seq<T>)
    ensures forall i :: 0 <= i < |s| && s[i] !in s[..i] ==> i in FirstIndices(s)
    decreases |s|
  {
    if |s| > 0 {
      var n := |s| - 1;
      FirstIndicesComplete(s[..n]);
      PrefixAgrees(s, n);
    }
  }

  /** Dedup keeps exactly the first occurrences: its k-th element is the
      element of `s` at the k-th first-occurrence position. Together with
      FirstIndicesAreFirst and FirstIndicesComplete, the output is the
      subsequence of `s` made of first occurrences, in their original order. */
  lemma {:induction false} DedupKeepsFirstOccurrences<T(!new)>(s: seq<T>)
    ensures |FirstIndices(s)| == |Dedup(s)|
    ensures forall k :: 0 <= k < |Dedup(s)| ==>
      FirstIndices(s)[k] < |s| && Dedup(s)[k] == s[FirstIndices(s)[k]]
    decreases |s|
  {
    if |s| > 0 {
      var n := |s| - 1;
      DedupKeepsFirstOccurrences(s[..n]);
      PrefixAgrees(s, n);
    }
  }

  /** A batch with no repeats is its own deduplication. */
  lemma {:induction false} DedupOfDistinct<T(!new)>(s: seq<T>)
    requires NoDuplicates(s)
    ensures Dedup(s) == s
    decreases |s|
  {
    if |s| > 0 {
      var init := s[..|s| - 1];
      DedupOfDistinct(init);
      assert s[|s| - 1] !in init;
      assert init + [s[|s| - 1]] == s;
    }
  }

  /** Deduplicating twice is the same as deduplicating once. */
  lemma {:induction false} DedupIdempotent<T(!new)>(s: seq<T>)
    ensures Dedup(Dedup(s)) == Dedup(s)
  {
    DedupOfDistinct(Dedup(s));
  }

  /** Extending a pool never reorders what was already kept: the deduplication
      of `a` is a prefix of the deduplication of `a + b`. */
  lemma {:induction false} DedupPrefix<T(!new)>(a: seq<T>, b: seq<T>)
    ensures Dedup(a) <= Dedup(a + b)
    decreases |b|
  {
    if |b| > 0 {
      var c := a + b;
      var b' := b[..|b| - 1];
      DedupPrefix(a, b');
      assert c[..|c| - 1] == a + b';
    } else {
      assert a + b == a;
    }
  }

  /** Deduplicating a pool that starts with `a` keeps the deduplication of
      `a` as its prefix, so every element of `a` survives. */
  lemma DedupKeepsLeadingBatch<T(!new)>(a: seq<T>, b: seq<T>)
    ensures Dedup(a) <= Dedup(a + b)
    ensures forall x :: x in a ==> x in Dedup(a + b)
  {
    DedupPrefix(a, b);
    assert forall x :: x in a ==> x in a + b;
  }
}
