/** PHP arrays whose keys are all strings, as the client uses them for request
    bodies and log contexts: an ordered list of entries, each key at most once. */
module PhpArray {
  import opened Wrappers
  import Sequences

  type Array<V> = seq<(string, V)>

  /** The keys of `a`, in insertion order (`array_keys`). */
  function Keys<V>(a: Array<V>): (ks: seq<string>)
    ensures |ks| == |a|
    ensures forall i :: 0 <= i < |a| ==> ks[i] == a[i].0
  {
    if a == [] then [] else [a[0].0] + Keys(a[1..])
  }

  /** What every PHP array guarantees: no key is stored twice. */
  ghost predicate DistinctKeys<V>(a: Array<V>)
  {
    Sequences.Distinct(Keys(a))
  }

  /** `$a[$k] ?? null`: the value stored under `k`, if there is one. */
  function Lookup<V>(a: Array<V>, k: string): (r: Option<V>)
    ensures r.Some? <==> k in Keys(a)
    ensures r.Some? ==> (k, r.value) in a
  {
    if a == [] then None
    else if a[0].0 == k then Some(a[0].1)
    else Lookup(a[1..], k)
  }

  /** `$a[$k] = $v`: an existing key keeps its place and takes the new value,
      a new key is appended. */
  function Put<V>(a: Array<V>, k: string, v: V): Array<V>
  {
    if a == [] then [(k, v)]
    else if a[0].0 == k then [(k, v)] + a[1..]
    else [a[0]] + Put(a[1..], k, v)
  }

  /** After `$a[$k] = $v` the key holds `v`; a key already present keeps the
      key order as it was, and a new key is appended at the end. */
  lemma {:induction false} PutStores<V>(a: Array<V>, k: string, v: V)
    ensures Lookup(Put(a, k, v), k) == Some(v)
    ensures k in Keys(a) ==> Keys(Put(a, k, v)) == Keys(a)
    ensures k !in Keys(a) ==> Put(a, k, v) == a + [(k, v)]
  {
    if a != [] {
      assert a == [a[0]] + a[1..];
      if a[0].0 == k {
        Prepend((k, v), a[1..], k);
      } else {
        PutStores(a[1..], k, v);
        Prepend(a[0], Put(a[1..], k, v), k);
      }
    }
  }

  /** The keys and values of an array with one more entry in front. */
  lemma Prepend<V>(e: (string, V), a: Array<V>, k: string)
    ensures Keys([e] + a) == [e.0] + Keys(a)
    ensures Lookup([e] + a, k) == if e.0 == k then Some(e.1) else Lookup(a, k)
  {
    assert ([e] + a)[1..] == a;
  }

  /** Putting a value under `k` leaves every other key's value as it was. */
  lemma {:induction false} PutKeepsOthers<V>(a: Array<V>, k: string, v: V, j: string)
    requires j != k
    ensures Lookup(Put(a, k, v), j) == Lookup(a, j)
  {
    if a != [] && a[0].0 != k {
      PutKeepsOthers(a[1..], k, v, j);
      var r := Put(a, k, v);
      assert r[1..] == Put(a[1..], k, v);
    }
  }

  /** A lookup in two arrays joined end to end finds the first one's entry
      when it has one, and otherwise the second one's. */
  lemma {:induction false} LookupConcat<V>(a: Array<V>, b: Array<V>, k: string)
    ensures Lookup(a + b, k) == if Lookup(a, k).Some? then Lookup(a, k) else Lookup(b, k)
  {
    if a == [] {
      assert a + b == b;
    } else {
      assert (a + b)[1..] == a[1..] + b;
      LookupConcat(a[1..], b, k);
    }
  }

  lemma {:induction false} KeysConcat<V>(a: Array<V>, b: Array<V>)
    ensures Keys(a + b) == Keys(a) + Keys(b)
  {
  }

  /** `array_merge($a, $b)` for string keys: the entries of `b` are put into
      `a` one after the other, a key already in `a` taking `b`'s value in place. */
  function Merge<V>(a: Array<V>, b: Array<V>): Array<V>
    decreases |b|
  {
    if b == [] then a else Merge(Put(a, b[0].0, b[0].1), b[1..])
  }

  /** After merging, a key of `b` holds `b`'s value and any other key holds `a`'s. */
  lemma {:induction false} MergeLookup<V>(a: Array<V>, b: Array<V>, k: string)
    requires DistinctKeys(b)
    ensures Lookup(Merge(a, b), k) == if k in Keys(b) then Lookup(b, k) else Lookup(a, k)
    decreases |b|
  {
    if b != [] {
      assert b == [b[0]] + b[1..];
      Prepend(b[0], b[1..], k);
      Sequences.DistinctCons(b[0].0, Keys(b[1..]));
      MergeLookup(Put(a, b[0].0, b[0].1), b[1..], k);
      PutStores(a, b[0].0, b[0].1);
      if k != b[0].0 {
        PutKeepsOthers(a, b[0].0, b[0].1, k);
      }
    }
  }

  /** Putting a key that `a` lacks appends one entry. */
  lemma PutNew<V>(a: Array<V>, e: (string, V))
    requires e.0 !in Keys(a)
    ensures Put(a, e.0, e.1) == a + [e]
    ensures Keys(a + [e]) == Keys(a) + [e.0]
  {
    PutStores(a, e.0, e.1);
    KeysConcat(a, [e]);
  }

  /** When the keys of `a` follow a prefix of a fixed order of distinct keys,
      putting the next key of that order appends it, and the keys still follow
      the order one step further. */
  lemma PutNext<V>(a: Array<V>, order: seq<string>, i: nat, v: V)
    requires i < |order| && Sequences.Distinct(order)
    requires Sequences.Subsequence(Keys(a), order[..i])
    ensures Put(a, order[i], v) == a + [(order[i], v)]
    ensures Sequences.Subsequence(Keys(a + [(order[i], v)]), order[..i + 1])
  {
    Sequences.SubsequenceMembers(Keys(a), order[..i]);
    assert order[i] !in order[..i];
    PutNew(a, (order[i], v));
    assert Sequences.Subsequence([order[i]], [order[i]]);
    Sequences.SubsequenceConcat(Keys(a), order[..i], [order[i]], [order[i]]);
    assert order[..i + 1] == order[..i] + [order[i]];
  }

  /** Skipping a key of the order keeps the keys following the order. */
  lemma SkipNext<V>(a: Array<V>, order: seq<string>, i: nat)
    requires i < |order|
    requires Sequences.Subsequence(Keys(a), order[..i])
    ensures Sequences.Subsequence(Keys(a), order[..i + 1])
  {
    assert Sequences.Subsequence([], [order[i]]);
    Sequences.SubsequenceConcat(Keys(a), order[..i], [], [order[i]]);
    assert Keys(a) + [] == Keys(a);
    assert order[..i + 1] == order[..i] + [order[i]];
  }

  /** Merging a one-entry array whose key `a` lacks appends that entry. */
  lemma MergeOne<V>(a: Array<V>, e: (string, V))
    requires e.0 !in Keys(a)
    ensures Merge(a, [e]) == a + [e]
  {
    PutNew(a, e);
    assert [e][1..] == [];
  }

  /** Merging two entries whose keys `a` lacks appends them in order. */
  lemma MergeAppendsPair<V>(a: Array<V>, e1: (string, V), e2: (string, V))
    requires e1.0 != e2.0 && e1.0 !in Keys(a) && e2.0 !in Keys(a)
    ensures Merge(a, [e1, e2]) == a + [e1, e2]
  {
    PutNew(a, e1);
    assert [e1, e2][1..] == [e2];
    MergeOne(a + [e1], e2);
    assert (a + [e1]) + [e2] == a + [e1, e2];
  }
}
