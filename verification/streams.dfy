/** The stateless Kafka Streams DSL operators the two topologies are built
    from, over a finite, ordered slice of one partition of a keyed stream:
    `filter`, the default branch of a one-predicate `split`, `mapValues`,
    `split().branch(p).defaultBranch()` and `merge`. */
module Streams {

  /** A keyed record as it travels from one operator to the next. */
  datatype KeyValue<K, V> = KeyValue(key: K, value: V)

  /** `filter(p)`: the records satisfying `p`, in arrival order; the others
      are dropped without any error. */
  function Filter<K, V>(s: seq<KeyValue<K, V>>, p: (K, V) -> bool): (r: seq<KeyValue<K, V>>)
    ensures |r| <= |s|
    ensures forall i :: 0 <= i < |r| ==> p(r[i].key, r[i].value)
    decreases |s|
  {
    if |s| == 0 then []
    else (if p(s[0].key, s[0].value) then [s[0]] else []) + Filter(s[1..], p)
  }

  /** The records that do NOT satisfy `p`, in arrival order. */
  function FilterNot<K, V>(s: seq<KeyValue<K, V>>, p: (K, V) -> bool): (r: seq<KeyValue<K, V>>)
    ensures |r| <= |s|
    ensures forall i :: 0 <= i < |r| ==> !p(r[i].key, r[i].value)
    decreases |s|
  {
    if |s| == 0 then []
    else (if p(s[0].key, s[0].value) then [] else [s[0]]) + FilterNot(s[1..], p)
  }

  /** `mapValues(f)`: every record's value is replaced by `f` of it; the key,
      the number of records and their order are kept. */
  function MapValues<K, V, W>(s: seq<KeyValue<K, V>>, f: V -> W): (r: seq<KeyValue<K, W>>)
    ensures |r| == |s|
    ensures forall i :: 0 <= i < |s| ==> r[i].key == s[i].key && r[i].value == f(s[i].value)
    decreases |s|
  {
    if |s| == 0 then [] else [KeyValue(s[0].key, f(s[0].value))] + MapValues(s[1..], f)
  }

  /** The two sub-streams of `split().branch(p).defaultBranch()`. */
  datatype Branches<K, V> = Branches(matched: seq<KeyValue<K, V>>, default: seq<KeyValue<K, V>>)

  /** Records satisfying `p` go to the named branch, all others to the default
      branch: every record lands in exactly one of the two. */
  function Split<K, V>(s: seq<KeyValue<K, V>>, p: (K, V) -> bool): (r: Branches<K, V>)
    ensures forall i :: 0 <= i < |r.matched| ==> p(r.matched[i].key, r.matched[i].value)
    ensures forall i :: 0 <= i < |r.default| ==> !p(r.default[i].key, r.default[i].value)
    ensures |r.matched| + |r.default| == |s|
  {
    SplitLength(s, p);
    Branches(Filter(s, p), FilterNot(s, p))
  }

  /** The two branches of a split are a partition of its input: nothing is
      lost and nothing duplicated. */
  lemma {:induction false} SplitPartition<K, V>(s: seq<KeyValue<K, V>>, p: (K, V) -> bool, x: KeyValue<K, V>)
    ensures Occurrences(Filter(s, p), x) + Occurrences(FilterNot(s, p), x) == Occurrences(s, x)
    decreases |s|
  {
    if |s| > 0 {
      var rest := s[1..];
      SplitPartition(rest, p, x);
      if p(s[0].key, s[0].value) {
        assert Filter(s, p) == [s[0]] + Filter(rest, p);
        assert Filter(s, p)[1..] == Filter(rest, p);
        assert FilterNot(s, p) == FilterNot(rest, p);
      } else {
        assert Filter(s, p) == Filter(rest, p);
        assert FilterNot(s, p) == [s[0]] + FilterNot(rest, p);
        assert FilterNot(s, p)[1..] == FilterNot(rest, p);
      }
    }
  }

  /** Between them the two branches of a split hold as many records as the input. */
  lemma {:induction false} SplitLength<K, V>(s: seq<KeyValue<K, V>>, p: (K, V) -> bool)
    ensures |Filter(s, p)| + |FilterNot(s, p)| == |s|
    decreases |s|
  {
    if |s| > 0 {
      SplitLength(s[1..], p);
    }
  }

  /** The stateless operators act record by record: applied to a
      concatenation, they give the concatenation of their results. */
  lemma {:induction false} FilterConcat<K, V>(a: seq<KeyValue<K, V>>, b: seq<KeyValue<K, V>>, p: (K, V) -> bool)
    ensures Filter(a + b, p) == Filter(a, p) + Filter(b, p)
    decreases |a|
  {
    if |a| > 0 {
      assert (a + b)[1..] == a[1..] + b;
      FilterConcat(a[1..], b, p);
    } else {
      assert a + b == b;
    }
  }

  lemma {:induction false} FilterNotConcat<K, V>(a: seq<KeyValue<K, V>>, b: seq<KeyValue<K, V>>, p: (K, V) -> bool)
    ensures FilterNot(a + b, p) == FilterNot(a, p) + FilterNot(b, p)
    decreases |a|
  {
    if |a| > 0 {
      assert (a + b)[1..] == a[1..] + b;
      FilterNotConcat(a[1..], b, p);
    } else {
      assert a + b == b;
    }
  }

  lemma {:induction false} MapValuesConcat<K, V, W>(a: seq<KeyValue<K, V>>, b: seq<KeyValue<K, V>>, f: V -> W)
    ensures MapValues(a + b, f) == MapValues(a, f) + MapValues(b, f)
  {
  }

  /** `r` is an interleaving of `a` and `b`: it contains the records of both,
      each input's records in that input's own order, and nothing else. This
      is all `merge` promises about the order of its output. */
  ghost predicate Interleaving<T>(r: seq<T>, a: seq<T>, b: seq<T>)
    decreases |r|
  {
    if |r| == 0 then a == [] && b == []
    else
      (|a| > 0 && r[0] == a[0] && Interleaving(r[1..], a[1..], b))
      || (|b| > 0 && r[0] == b[0] && Interleaving(r[1..], a, b[1..]))
  }

  /** `merge` neither loses nor duplicates a record. */
  lemma {:induction false} InterleavingMultiset<T>(r: seq<T>, a: seq<T>, b: seq<T>)
    requires Interleaving(r, a, b)
    ensures multiset(r) == multiset(a) + multiset(b)
    ensures |r| == |a| + |b|
    decreases |r|
  {
    if |r| > 0 {
      assert r == [r[0]] + r[1..];
      if |a| > 0 && r[0] == a[0] && Interleaving(r[1..], a[1..], b) {
        InterleavingMultiset(r[1..], a[1..], b);
        assert a == [a[0]] + a[1..];
      } else {
        InterleavingMultiset(r[1..], a, b[1..]);
        assert b == [b[0]] + b[1..];
      }
    }
  }

  /** How many times `x` occurs in `s`. */
  ghost function Occurrences<T>(s: seq<T>, x: T): nat
    decreases |s|
  {
    if |s| == 0 then 0
    else (if s[0] == x then 1 else 0) + Occurrences(s[1..], x)
  }

  /** `Occurrences` is the multiplicity of `x` in the multiset of `s`. */
  lemma {:induction false} OccurrencesIsMultiplicity<T>(s: seq<T>, x: T)
    ensures Occurrences(s, x) == multiset(s)[x]
    decreases |s|
  {
    if |s| > 0 {
      assert s == [s[0]] + s[1..];
      OccurrencesIsMultiplicity(s[1..], x);
    }
  }

  /** Record by record, `merge` neither loses nor duplicates: every value
      occurs in the merged stream as often as in its two inputs together. */
  lemma {:induction false} InterleavingOccurrences<T>(r: seq<T>, a: seq<T>, b: seq<T>, x: T)
    requires Interleaving(r, a, b)
    ensures Occurrences(r, x) == Occurrences(a, x) + Occurrences(b, x)
    decreases |r|
  {
    if |r| > 0 {
      if |a| > 0 && r[0] == a[0] && Interleaving(r[1..], a[1..], b) {
        InterleavingOccurrences(r[1..], a[1..], b, x);
      } else {
        InterleavingOccurrences(r[1..], a, b[1..], x);
      }
    }
  }

  /** A record put in front of an interleaving may come from either input. */
  lemma InterleavingConsLeft<T>(x: T, r: seq<T>, a: seq<T>, b: seq<T>)
    requires Interleaving(r, a, b)
    ensures Interleaving([x] + r, [x] + a, b)
  {
  }

  lemma InterleavingConsRight<T>(x: T, r: seq<T>, a: seq<T>, b: seq<T>)
    requires Interleaving(r, a, b)
    ensures Interleaving([x] + r, a, [x] + b)
  {
  }

  /** At most one record put in front of an interleaving, from either input. */
  lemma InterleavingPrependOne<T>(left: seq<T>, right: seq<T>, r: seq<T>, a: seq<T>, b: seq<T>)
    requires |left| + |right| <= 1
    requires Interleaving(r, a, b)
    ensures Interleaving(right + left + r, left + a, right + b)
  {
    if |left| == 1 {
      assert right + left + r == [left[0]] + r && left + a == [left[0]] + a && right + b == b;
      InterleavingConsLeft(left[0], r, a, b);
    } else if |right| == 1 {
      assert right + left + r == [right[0]] + r && left + a == a && right + b == [right[0]] + b;
      InterleavingConsRight(right[0], r, a, b);
    } else {
      assert right + left + r == r && left + a == a && right + b == b;
    }
  }

  lemma {:induction false} InterleavingRight<T>(b: seq<T>)
    ensures Interleaving(b, [], b)
    decreases |b|
  {
    if |b| > 0 {
      InterleavingRight(b[1..]);
    }
  }

  lemma {:induction false} ConcatIsInterleaving<T>(a: seq<T>, b: seq<T>)
    ensures Interleaving(a + b, a, b)
    decreases |a|
  {
    if |a| == 0 {
      assert a + b == b;
      InterleavingRight(b);
    } else {
      assert (a + b)[1..] == a[1..] + b;
      ConcatIsInterleaving(a[1..], b);
    }
  }

  /** `a.merge(b)`: one admissible output order, all of `a` then all of `b`.
      The topologies state their merged output as an `Interleaving` directly;
      this function only witnesses that the merge contract can be met. */
  function Merge<T>(a: seq<T>, b: seq<T>): (r: seq<T>)
    ensures Interleaving(r, a, b)
    ensures multiset(r) == multiset(a) + multiset(b)
  {
    ConcatIsInterleaving(a, b);
    InterleavingMultiset(a + b, a, b);
    a + b
  }
}
