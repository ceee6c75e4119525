/**
 * Python's `dict` with string keys, as an association list. A dict is a finite map that
 * iterates in insertion order: assigning to a key that is present keeps its position,
 * assigning to a new key appends it, and `del` removes the key without reordering the
 * others. The modelled code iterates several dicts while notifying strategies, so the
 * order is part of its observable behaviour.
 */
module Dicts {
  import opened Common

  type Dict<V> = seq<(string, V)>

  /** The keys in iteration order. */
  function Keys<V>(d: Dict<V>): (ks: seq<string>)
    ensures |ks| == |d|
  {
    if d == [] then [] else [d[0].0] + Keys(d[1..])
  }

  lemma {:induction false} KeysAt<V>(d: Dict<V>, i: nat)
    requires i < |d|
    ensures Keys(d)[i] == d[i].0
  {
    if i > 0 { KeysAt(d[1..], i - 1); }
  }

  /** No key occurs twice: every dict built by `Put` and `Remove` has this shape. */
  predicate DistinctKeys<V>(d: Dict<V>) {
    forall i, j :: 0 <= i < j < |d| ==> d[i].0 != d[j].0
  }

  /** `d.get(k)`: the value stored under `k`, or `None` when `k` is absent. */
  function Get<V>(d: Dict<V>, k: string): (r: Option<V>)
  {
    if d == [] then None else if d[0].0 == k then Some(d[0].1) else Get(d[1..], k)
  }

  /** A key is present exactly when it is listed among the keys, and then its entry is in the list. */
  lemma {:induction false} GetIsMembership<V>(d: Dict<V>, k: string)
    ensures Get(d, k).Some? <==> k in Keys(d)
    ensures Get(d, k).Some? ==> (k, Get(d, k).value) in d
  {
    if d != [] && d[0].0 != k {
      GetIsMembership(d[1..], k);
    }
  }

  lemma {:induction false} HeadNotInTail<V>(d: Dict<V>)
    requires d != [] && DistinctKeys(d)
    ensures d[0].0 !in Keys(d[1..])
  {
    forall j | 0 <= j < |d| - 1 ensures Keys(d[1..])[j] != d[0].0 {
      KeysAt(d[1..], j);
      assert d[1..][j] == d[j + 1];
    }
  }

  /** Two lists with the same keys have the same keys present. */
  lemma SameKeysSamePresence<V, W>(a: Dict<V>, b: Dict<W>)
    requires Keys(a) == Keys(b)
    ensures forall k :: Get(a, k).Some? <==> Get(b, k).Some?
  {
    forall k ensures Get(a, k).Some? <==> Get(b, k).Some? {
      GetIsMembership(a, k);
      GetIsMembership(b, k);
    }
  }

  /** Two lists with the same keys in the same order are alike in having distinct keys. */
  lemma SameKeysDistinct<V, W>(a: Dict<V>, b: Dict<W>)
    requires Keys(a) == Keys(b) && DistinctKeys(a)
    ensures DistinctKeys(b)
  {
    forall i, j | 0 <= i < j < |b| ensures b[i].0 != b[j].0 {
      KeysAt(a, i);
      KeysAt(a, j);
      KeysAt(b, i);
      KeysAt(b, j);
    }
  }

  function PutEntry<V>(d: Dict<V>, k: string, v: V): Dict<V>
  {
    if d == [] then [(k, v)]
    else if d[0].0 == k then [(k, v)] + d[1..]
    else [d[0]] + PutEntry(d[1..], k, v)
  }

  lemma PutEntryLaws<V>(d: Dict<V>, k: string, v: V)
    ensures forall k' :: Get(PutEntry(d, k, v), k') == if k' == k then Some(v) else Get(d, k')
    ensures Keys(PutEntry(d, k, v)) == if k in Keys(d) then Keys(d) else Keys(d) + [k]
    ensures DistinctKeys(d) ==> DistinctKeys(PutEntry(d, k, v))
  {
    forall k' ensures Get(PutEntry(d, k, v), k') == if k' == k then Some(v) else Get(d, k') {
      PutEntryGet(d, k, v, k');
    }
    PutEntryKeys(d, k, v);
    if DistinctKeys(d) {
      PutEntryDistinct(d, k, v);
    }
  }

  lemma {:induction false} PutEntryGet<V>(d: Dict<V>, k: string, v: V, k': string)
    ensures Get(PutEntry(d, k, v), k') == if k' == k then Some(v) else Get(d, k')
  {
    if d != [] && d[0].0 != k {
      PutEntryGet(d[1..], k, v, k');
      assert ([d[0]] + PutEntry(d[1..], k, v))[1..] == PutEntry(d[1..], k, v);
    } else if d != [] {
      assert ([(k, v)] + d[1..])[1..] == d[1..];
    }
  }

  lemma {:induction false} PutEntryKeys<V>(d: Dict<V>, k: string, v: V)
    ensures Keys(PutEntry(d, k, v)) == if k in Keys(d) then Keys(d) else Keys(d) + [k]
  {
    if d == [] {
      assert Keys([(k, v)]) == [k];
    } else if d[0].0 == k {
      assert ([(k, v)] + d[1..])[1..] == d[1..];
      assert Keys(d) == [k] + Keys(d[1..]);
    } else {
      var rest := PutEntry(d[1..], k, v);
      PutEntryKeys(d[1..], k, v);
      assert ([d[0]] + rest)[1..] == rest;
      assert Keys(PutEntry(d, k, v)) == [d[0].0] + Keys(rest);
      assert Keys(d) == [d[0].0] + Keys(d[1..]);
      ConcatAssoc([d[0].0], Keys(d[1..]), [k]);
    }
  }

  lemma PutEntryDistinct<V>(d: Dict<V>, k: string, v: V)
    requires DistinctKeys(d)
    ensures DistinctKeys(PutEntry(d, k, v))
  {
    var r := PutEntry(d, k, v);
    PutEntryKeys(d, k, v);
    if k in Keys(d) {
      SameKeysDistinct(d, r);
    } else {
      forall i, j | 0 <= i < j < |r| ensures r[i].0 != r[j].0 {
        KeysAt(r, i);
        KeysAt(r, j);
        KeysAt(d, i);
        if j < |d| {
          KeysAt(d, j);
        }
      }
    }
  }

  /** `d[k] = v`: afterwards `k` maps to `v`, every other key keeps its value, a present key
      keeps its place and a new key goes last. */
  function Put<V>(d: Dict<V>, k: string, v: V): (r: Dict<V>)
    ensures forall k' :: Get(r, k') == if k' == k then Some(v) else Get(d, k')
    ensures Keys(r) == if k in Keys(d) then Keys(d) else Keys(d) + [k]
    ensures DistinctKeys(d) ==> DistinctKeys(r)
  {
    PutEntryLaws(d, k, v);
    PutEntry(d, k, v)
  }

  function RemoveEntry<V>(d: Dict<V>, k: string): Dict<V>
  {
    if d == [] then []
    else if d[0].0 == k then d[1..]
    else [d[0]] + RemoveEntry(d[1..], k)
  }

  lemma {:induction false} RemoveEntryLaws<V>(d: Dict<V>, k: string)
    requires DistinctKeys(d)
    ensures forall k' :: Get(RemoveEntry(d, k), k') == if k' == k then None else Get(d, k')
    ensures forall k' :: k' in Keys(RemoveEntry(d, k)) <==> k' in Keys(d) && k' != k
    ensures DistinctKeys(RemoveEntry(d, k))
  {
    if d != [] {
      HeadNotInTail(d);
      if d[0].0 == k {
        forall k' ensures Get(d[1..], k') == if k' == k then None else Get(d, k') {
          GetIsMembership(d[1..], k');
        }
      } else {
        var rest := RemoveEntry(d[1..], k);
        RemoveEntryLaws(d[1..], k);
        assert Keys(RemoveEntry(d, k)) == [d[0].0] + Keys(rest);
        var r := RemoveEntry(d, k);
        forall i, j | 0 <= i < j < |r| ensures r[i].0 != r[j].0 {
          if i == 0 {
            KeysAt(rest, j - 1);
          }
        }
      }
    }
  }

  /** `del d[k]` for a present key: `k` is gone, every other key keeps its value and place. */
  function Remove<V>(d: Dict<V>, k: string): (r: Dict<V>)
    requires DistinctKeys(d)
    ensures forall k' :: Get(r, k') == if k' == k then None else Get(d, k')
    ensures forall k' :: k' in Keys(r) <==> k' in Keys(d) && k' != k
    ensures DistinctKeys(r)
  {
    RemoveEntryLaws(d, k);
    RemoveEntry(d, k)
  }

  /** Only the entry of `k` goes: the entries before it, then those after it, in their order. */
  lemma RemoveKeepsOrder<V>(d: Dict<V>, k: string, i: nat)
    requires DistinctKeys(d) && i < |d| && d[i].0 == k
    ensures Remove(d, k) == d[..i] + d[i + 1..]
  {
    RemoveEntrySplit(d, k, i);
  }

  lemma {:induction false} RemoveEntrySplit<V>(d: Dict<V>, k: string, i: nat)
    requires i < |d| && d[i].0 == k && forall j :: 0 <= j < i ==> d[j].0 != k
    ensures RemoveEntry(d, k) == d[..i] + d[i + 1..]
  {
    if i == 0 {
      assert d[..0] + d[1..] == d[1..];
    } else {
      RemoveEntrySplit(d[1..], k, i - 1);
      assert [d[0]] + (d[1..][..i - 1] + d[1..][i..]) == d[..i] + d[i + 1..];
    }
  }

  lemma {:induction false} KeysConcat<V>(a: Dict<V>, b: Dict<V>)
    ensures Keys(a + b) == Keys(a) + Keys(b)
  {
    if a == [] {
      assert a + b == b;
    } else {
      assert (a + b)[1..] == a[1..] + b;
      KeysConcat(a[1..], b);
      ConcatAssoc([a[0].0], Keys(a[1..]), Keys(b));
    }
  }

  lemma {:induction false} RemoveEntryAfterPutEntry<V>(d: Dict<V>, k: string, v: V)
    requires k !in Keys(d)
    ensures RemoveEntry(PutEntry(d, k, v), k) == d
  {
    if d != [] {
      assert Keys(d) == [d[0].0] + Keys(d[1..]);
      RemoveEntryAfterPutEntry(d[1..], k, v);
      assert ([d[0]] + PutEntry(d[1..], k, v))[1..] == PutEntry(d[1..], k, v);
    }
  }

  /** Deleting a key that was just added gives the dict back, order included. */
  lemma RemoveAfterPut<V>(d: Dict<V>, k: string, v: V)
    requires DistinctKeys(d) && k !in Keys(d)
    ensures Remove(Put(d, k, v), k) == d
  {
    RemoveEntryAfterPutEntry(d, k, v);
  }
}
