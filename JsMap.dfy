/** A JavaScript `Map` with number keys, as the server store uses it: its
    entries in insertion order. `set` on a present key replaces the value
    where it stands, `set` on a new key appends, `delete` removes the entry,
    and `values()` yields the values in that order. */
module JsMap {
  import opened Js

  type Entries<V> = seq<(int, V)>

  function Keys<V>(m: Entries<V>): (r: seq<int>)
    ensures |r| == |m|
    ensures forall i :: 0 <= i < |m| ==> r[i] == m[i].0
  {
    if |m| == 0 then [] else [m[0].0] + Keys(m[1..])
  }

  /** `Array.from(m.values())`. */
  function Values<V>(m: Entries<V>): (r: seq<V>)
    ensures |r| == |m|
    ensures forall i :: 0 <= i < |m| ==> r[i] == m[i].1
  {
    if |m| == 0 then [] else [m[0].1] + Values(m[1..])
  }

  /** Keys strictly increase in insertion order (so they are distinct). */
  predicate Increasing<V>(m: Entries<V>) {
    forall i, j :: 0 <= i < j < |m| ==> m[i].0 < m[j].0
  }

  /** Every key lies in [lo, hi). */
  predicate KeysWithin<V>(m: Entries<V>, lo: int, hi: int) {
    forall i :: 0 <= i < |m| ==> lo <= m[i].0 < hi
  }

  /** `m.get(k)`. */
  function Get<V>(m: Entries<V>, k: int): (r: Option<V>)
    ensures r.Some? <==> k in Keys(m)
    ensures r.Some? ==> exists i :: 0 <= i < |m| && m[i] == (k, r.value)
  {
    if |m| == 0 then None
    else if m[0].0 == k then Some(m[0].1)
    else Get(m[1..], k)
  }

  /** The index of the entry with key `k`, or `|m|` when there is none. */
  function IndexOf<V>(m: Entries<V>, k: int): (i: nat)
    ensures i <= |m|
    ensures i < |m| ==> m[i].0 == k
    ensures forall j :: 0 <= j < i ==> m[j].0 != k
    ensures k !in Keys(m) ==> i == |m|
  {
    if |m| == 0 || m[0].0 == k then 0 else 1 + IndexOf(m[1..], k)
  }

  /** With distinct keys, the entry at index `i` is the one found for its key. */
  lemma IndexOfAt<V>(m: Entries<V>, i: int)
    requires Increasing(m) && 0 <= i < |m|
    ensures IndexOf(m, m[i].0) == i
  {
    var x := IndexOf(m, m[i].0);
    assert x <= i;
    assert m[x].0 == m[i].0;
  }

  /** `m.set(k, v)`: a present key keeps its place, a new key is appended. */
  function Set<V>(m: Entries<V>, k: int, v: V): (r: Entries<V>)
    ensures k !in Keys(m) ==> r == m + [(k, v)]
  {
    var i := IndexOf(m, k);
    if i < |m| then m[i := (k, v)] else m + [(k, v)]
  }

  /** `m.delete(k)`: the entry with key `k`, if any, is removed. */
  function Delete<V>(m: Entries<V>, k: int): (r: Entries<V>)
  {
    var i := IndexOf(m, k);
    if i < |m| then m[..i] + m[i + 1..] else m
  }

  /** In a map with distinct keys, the entry at index `i` is what `get` finds. */
  lemma {:induction false} GetAt<V>(m: Entries<V>, i: int)
    requires Increasing(m) && 0 <= i < |m|
    ensures Get(m, m[i].0) == Some(m[i].1)
  {
    if i > 0 {
      GetAt(m[1..], i - 1);
    }
  }

  /** `set` on a present key replaces that entry where it stands. */
  lemma SetAt<V>(m: Entries<V>, i: int, v: V)
    requires Increasing(m) && 0 <= i < |m|
    ensures Set(m, m[i].0, v) == m[i := (m[i].0, v)]
  {
    IndexOfAt(m, i);
  }

  /** `delete` on an absent key changes nothing. */
  lemma DeleteAbsent<V>(m: Entries<V>, k: int)
    requires k !in Keys(m)
    ensures Delete(m, k) == m
  {
  }

  /** `delete` on a present key removes exactly that entry and keeps the
      order of the others. */
  lemma DeleteAt<V>(m: Entries<V>, i: int)
    requires Increasing(m) && 0 <= i < |m|
    ensures Delete(m, m[i].0) == m[..i] + m[i + 1..]
  {
    IndexOfAt(m, i);
    DeleteFound(m, i);
  }

  lemma DeleteFound<V>(m: Entries<V>, i: int)
    requires 0 <= i < |m| && IndexOf(m, m[i].0) == i
    ensures Delete(m, m[i].0) == m[..i] + m[i + 1..]
  {
  }

  lemma ValuesAppend<V>(m: Entries<V>, k: int, v: V)
    ensures Values(m + [(k, v)]) == Values(m) + [v]
  {
    assert forall i :: 0 <= i < |m| ==> (m + [(k, v)])[i] == m[i];
  }

  lemma ValuesReplace<V>(m: Entries<V>, i: int, v: V)
    requires 0 <= i < |m|
    ensures Values(m[i := (m[i].0, v)]) == Values(m)[i := v]
  {
  }

  /** Removing one entry keeps the rest ordered and within bounds. */
  lemma RemoveAtKeeps<V>(m: Entries<V>, i: int, lo: int, hi: int)
    requires Increasing(m) && KeysWithin(m, lo, hi) && 0 <= i < |m|
    ensures Increasing(m[..i] + m[i + 1..]) && KeysWithin(m[..i] + m[i + 1..], lo, hi)
  {
    var r := m[..i] + m[i + 1..];
    assert forall j :: 0 <= j < |r| ==> r[j] == (if j < i then m[j] else m[j + 1]);
  }

  /** Replacing the value at an index keeps the keys. */
  lemma ReplaceAtKeeps<V>(m: Entries<V>, i: int, v: V, lo: int, hi: int)
    requires Increasing(m) && KeysWithin(m, lo, hi) && 0 <= i < |m|
    ensures Increasing(m[i := (m[i].0, v)]) && KeysWithin(m[i := (m[i].0, v)], lo, hi)
  {
  }

  /** Appending a key above every present one keeps the map ordered. */
  lemma AppendKeeps<V>(m: Entries<V>, k: int, v: V, lo: int)
    requires Increasing(m) && KeysWithin(m, lo, k) && lo <= k
    ensures Increasing(m + [(k, v)]) && KeysWithin(m + [(k, v)], lo, k + 1)
    ensures k !in Keys(m)
  {
  }
}
