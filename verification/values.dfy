/** Python values as the option resolver sees them, and the dictionary
    operations it uses (lookup, `d[k] = v`, `d.update(other)`). */
module Values {

  datatype Option<T> = None | Some(value: T)

  /** A Python value. Strings are kept because the resolver compares against
      the string sentinel and iterates strings; every other scalar (bool,
      number, None) is an opaque atom; lists and tuples are `List`; a dict is
      its entries in iteration order, keys distinct. */
  datatype Value =
    | Str(s: string)
    | Atom(repr: string)
    | List(items: seq<Value>)
    | Dict(entries: seq<(string, Value)>)

  type Entries = seq<(string, Value)>

  /** The keys of a dict. */
  function KeySet(es: Entries): set<string>
  {
    if es == [] then {} else {es[0].0} + KeySet(es[1..])
  }

  /** The keys of a dict in iteration order (`d.keys()`). */
  function KeyList(es: Entries): (ks: seq<string>)
    ensures |ks| == |es|
    ensures forall i :: 0 <= i < |es| ==> ks[i] == es[i].0
  {
    if es == [] then [] else [es[0].0] + KeyList(es[1..])
  }

  /** No key occurs twice, as in every Python dict. */
  ghost predicate DistinctKeys(es: Entries)
  {
    es == [] || (es[0].0 !in KeySet(es[1..]) && DistinctKeys(es[1..]))
  }

  /** `d[k]` (`None` stands for a KeyError). */
  function Find(es: Entries, k: string): (r: Option<Value>)
    ensures r.Some? <==> k in KeySet(es)
  {
    if es == [] then None
    else if es[0].0 == k then
      Some(es[0].1)
    else Find(es[1..], k)
  }

  /** What `d[k]` finds is an entry of the dict, and in a dict with distinct
      keys it is the value stored under `k`. */
  lemma {:induction false} FindIsStored(es: Entries, k: string)
    ensures Find(es, k).Some? ==> (k, Find(es, k).value) in es
    ensures forall v :: DistinctKeys(es) && (k, v) in es ==> Find(es, k) == Some(v)
  {
    if es != [] {
      FindIsStored(es[1..], k);
      assert forall p :: p in es ==> p == es[0] || p in es[1..];
    }
  }

  /** `d[k] = v`: an existing key keeps its place, a new key goes last. */
  function Put(es: Entries, k: string, v: Value): (r: Entries)
    ensures KeySet(r) == KeySet(es) + {k}
    ensures forall j :: Find(r, j) == if j == k then Some(v) else Find(es, j)
    ensures DistinctKeys(es) ==> DistinctKeys(r)
  {
    if es == [] then [(k, v)]
    else if es[0].0 == k then [(k, v)] + es[1..]
    else [es[0]] + Put(es[1..], k, v)
  }

  /** `d.update(other)`: the entries of `other` written over `d`, one by one. */
  function UpdateWith(es: Entries, other: Entries): (r: Entries)
    ensures KeySet(r) == KeySet(es) + KeySet(other)
    ensures DistinctKeys(es) ==> DistinctKeys(r)
    ensures DistinctKeys(other) ==>
      forall j :: Find(r, j) == if j in KeySet(other) then Find(other, j) else Find(es, j)
    decreases |other|
  {
    if other == [] then es
    else UpdateWith(Put(es, other[0].0, other[0].1), other[1..])
  }

  lemma {:induction false} KeyListHasKeys(es: Entries)
    ensures forall k :: k in KeyList(es) <==> k in KeySet(es)
  {
    if es != [] {
      KeyListHasKeys(es[1..]);
    }
  }

  lemma {:induction false} KeySetIndex(es: Entries)
    ensures forall i :: 0 <= i < |es| ==> es[i].0 in KeySet(es)
    ensures forall k :: k in KeySet(es) ==> exists i :: 0 <= i < |es| && es[i].0 == k
  {
    if es != [] {
      KeySetIndex(es[1..]);
      forall k | k in KeySet(es) ensures exists i :: 0 <= i < |es| && es[i].0 == k {
        if k != es[0].0 {
          var i :| 0 <= i < |es[1..]| && es[1..][i].0 == k;
          assert es[i + 1].0 == k;
        }
      }
    }
  }

  /** In a dict with distinct keys, two positions hold two different keys. */
  lemma {:induction false} DistinctIndex(es: Entries, i: nat, j: nat)
    requires DistinctKeys(es) && i < j < |es|
    ensures es[i].0 != es[j].0
  {
    if i == 0 {
      KeySetIndex(es[1..]);
      assert es[j].0 == es[1..][j - 1].0;
    } else {
      DistinctIndex(es[1..], i - 1, j - 1);
    }
  }

  lemma {:induction false} KeySetConcat(a: Entries, b: Entries)
    ensures KeySet(a + b) == KeySet(a) + KeySet(b)
  {
    if a != [] {
      KeySetConcat(a[1..], b);
      assert (a + b)[1..] == a[1..] + b;
    } else {
      assert a + b == b;
    }
  }

  lemma {:induction false} DistinctConcat(a: Entries, b: Entries)
    ensures DistinctKeys(a + b) <==> DistinctKeys(a) && DistinctKeys(b) && KeySet(a) !! KeySet(b)
  {
    if a != [] {
      DistinctConcat(a[1..], b);
      KeySetConcat(a[1..], b);
      assert (a + b)[1..] == a[1..] + b;
    } else {
      assert a + b == b;
    }
  }

  /** Writing a new key appends it. */
  lemma {:induction false} PutNew(es: Entries, k: string, v: Value)
    requires k !in KeySet(es)
    ensures Put(es, k, v) == es + [(k, v)]
  {
    if es != [] {
      PutNew(es[1..], k, v);
    }
  }

  /** Writing an existing key replaces its value where it stands. */
  lemma {:induction false} PutExisting(pre: Entries, k: string, u: Value, post: Entries, v: Value)
    requires k !in KeySet(pre)
    ensures Put(pre + [(k, u)] + post, k, v) == pre + [(k, v)] + post
  {
    var es := pre + [(k, u)] + post;
    if pre == [] {
      assert es == [(k, u)] + post;
      assert es[1..] == post;
    } else {
      assert es[0] == pre[0] && es[1..] == pre[1..] + [(k, u)] + post;
      PutExisting(pre[1..], k, u, post, v);
      assert pre + [(k, v)] + post == [pre[0]] + (pre[1..] + [(k, v)] + post);
    }
  }

  /** Keys that differ pairwise are distinct. */
  lemma {:induction false} DistinctByIndex(es: Entries)
    requires forall i, j :: 0 <= i < j < |es| ==> es[i].0 != es[j].0
    ensures DistinctKeys(es)
  {
    if es != [] {
      DistinctByIndex(es[1..]);
      KeySetIndex(es[1..]);
      forall k | k in KeySet(es[1..]) ensures k != es[0].0 {
        var i :| 0 <= i < |es[1..]| && es[1..][i].0 == k;
        assert es[i + 1].0 == k;
      }
    }
  }
}
