/**
 * A JavaScript plain object seen as an ordered association list from string
 * keys to values. Enumeration order is insertion order; assigning to an
 * existing key keeps its position, assigning to a new key appends it, and
 * `delete` drops the key. (JavaScript enumerates integer-like keys first;
 * that reordering is not modelled.)
 */
module OrderedMap {
  import opened Wrappers

  /** The keys in enumeration order, as `Object.keys` returns them. */
  function Keys<V>(m: seq<(string, V)>): seq<string>
  {
    seq(|m|, i requires 0 <= i < |m| => m[i].0)
  }

  /** No key occurs twice, as in every JavaScript object. */
  predicate Unique<V>(m: seq<(string, V)>)
  {
    forall i, j :: 0 <= i < j < |m| ==> m[i].0 != m[j].0
  }

  lemma KeysCons<V>(m: seq<(string, V)>)
    requires |m| > 0
    ensures Keys(m) == [m[0].0] + Keys(m[1..])
  {
  }

  /** The position of the first binding of `k`. */
  function IndexOf<V>(m: seq<(string, V)>, k: string): (i: nat)
    requires k in Keys(m)
    ensures i < |m| && m[i].0 == k
    ensures k !in Keys(m[..i])
  {
    KeysCons(m);
    if m[0].0 == k then 0
    else
      var j := IndexOf(m[1..], k);
      assert m[1..][..j] == m[1..j + 1];
      assert Keys(m[..j + 1]) == [m[0].0] + Keys(m[1..j + 1]) by { KeysCons(m[..j + 1]); }
      j + 1
  }

  /** The property read `m[k]`: the value bound to `k`, or nothing. */
  function Lookup<V>(m: seq<(string, V)>, k: string): (r: Option<V>)
    ensures r.Some? <==> k in Keys(m)
    ensures r.Some? ==> m[IndexOf(m, k)].1 == r.value
  {
    if |m| == 0 then None
    else
      KeysCons(m);
      if m[0].0 == k then Some(m[0].1) else Lookup(m[1..], k)
  }

  /** The assignment `m[k] = v`. */
  function Put<V>(m: seq<(string, V)>, k: string, v: V): (r: seq<(string, V)>)
  {
    if |m| == 0 then [(k, v)]
    else if m[0].0 == k then [(k, v)] + m[1..]
    else [m[0]] + Put(m[1..], k, v)
  }

  /** The statement `delete m[k]`. */
  function Remove<V>(m: seq<(string, V)>, k: string): (r: seq<(string, V)>)
  {
    if |m| == 0 then []
    else if m[0].0 == k then Remove(m[1..], k)
    else [m[0]] + Remove(m[1..], k)
  }

  /** In a well-formed object the read of a key yields the value bound at its position. */
  lemma LookupAt<V>(m: seq<(string, V)>, i: nat)
    requires Unique(m) && i < |m|
    ensures Lookup(m, m[i].0) == Some(m[i].1)
  {
    assert Keys(m)[i] == m[i].0;
    var j := IndexOf(m, m[i].0);
  }

  /** Assigning a key the object does not have appends it. */
  lemma {:induction false} PutNew<V>(m: seq<(string, V)>, k: string, v: V)
    requires k !in Keys(m)
    ensures Put(m, k, v) == m + [(k, v)]
  {
    if |m| > 0 {
      KeysCons(m);
      PutNew(m[1..], k, v);
      assert [m[0]] + (m[1..] + [(k, v)]) == m + [(k, v)];
    }
  }

  /** Assigning a key the object has replaces its value in place. */
  lemma {:induction false} PutExisting<V>(m: seq<(string, V)>, i: nat, v: V)
    requires Unique(m) && i < |m|
    ensures Put(m, m[i].0, v) == m[i := (m[i].0, v)]
  {
    if i > 0 {
      assert m[0].0 != m[i].0;
      assert m[1..][i - 1] == m[i];
      PutExisting(m[1..], i - 1, v);
      assert [m[0]] + m[1..][i - 1 := (m[i].0, v)] == m[i := (m[i].0, v)];
    }
  }

  /** Deleting a key the object does not have changes nothing. */
  lemma {:induction false} RemoveAbsent<V>(m: seq<(string, V)>, k: string)
    requires k !in Keys(m)
    ensures Remove(m, k) == m
  {
    if |m| > 0 {
      KeysCons(m);
      RemoveAbsent(m[1..], k);
      assert [m[0]] + m[1..] == m;
    }
  }

  /** Deleting a key the object has drops exactly its binding and keeps the rest in order. */
  lemma {:induction false} RemoveAt<V>(m: seq<(string, V)>, i: nat)
    requires Unique(m) && i < |m|
    ensures Remove(m, m[i].0) == m[..i] + m[i + 1..]
  {
    if i == 0 {
      assert m[0].0 !in Keys(m[1..]);
      RemoveAbsent(m[1..], m[0].0);
    } else {
      assert m[0].0 != m[i].0;
      assert m[1..][i - 1] == m[i];
      RemoveAt(m[1..], i - 1);
      assert [m[0]] + (m[1..][..i - 1] + m[1..][i..]) == m[..i] + m[i + 1..];
    }
  }

  /** Appending a fresh key keeps the keys unique. */
  lemma UniqueAppend<V>(m: seq<(string, V)>, k: string, v: V)
    requires k !in Keys(m)
    ensures Unique(m) ==> Unique(m + [(k, v)])
    ensures Keys(m + [(k, v)]) == Keys(m) + [k]
  {
    forall i | 0 <= i < |m|
      ensures (m + [(k, v)])[i].0 != k
    {
      assert Keys(m)[i] == m[i].0;
    }
  }

  /** After `m[k] = v`, reading `k` yields `v` and every other key reads as before. */
  lemma {:induction false} LookupPut<V>(m: seq<(string, V)>, k: string, v: V, k': string)
    ensures Lookup(Put(m, k, v), k') == if k' == k then Some(v) else Lookup(m, k')
  {
    if |m| > 0 && m[0].0 != k {
      LookupPut(m[1..], k, v, k');
    }
  }

  /** Dropping one binding keeps the keys unique and drops exactly that key. */
  lemma UniqueDrop<V>(m: seq<(string, V)>, i: nat)
    requires Unique(m) && i < |m|
    ensures Unique(m[..i] + m[i + 1..])
    ensures m[i].0 !in Keys(m[..i] + m[i + 1..])
    ensures forall k :: k in Keys(m) && k != m[i].0 ==> k in Keys(m[..i] + m[i + 1..])
  {
    var d := m[..i] + m[i + 1..];
    assert forall a :: 0 <= a < |d| ==> d[a] == m[if a < i then a else a + 1];
    forall k | k in Keys(m) && k != m[i].0
      ensures k in Keys(d)
    {
      var j :| 0 <= j < |m| && Keys(m)[j] == k;
      assert Keys(d)[if j < i then j else j - 1] == k;
    }
  }

  /** `m[k] = v; delete m[m[i].0]` with `k` new: the binding at `i` goes and the new one comes last. */
  lemma MoveKey<V>(m: seq<(string, V)>, i: nat, k: string, v: V)
    requires Unique(m) && i < |m| && k !in Keys(m)
    ensures Remove(Put(m, k, v), m[i].0) == m[..i] + m[i + 1..] + [(k, v)]
    ensures Unique(m[..i] + m[i + 1..] + [(k, v)])
    ensures k in Keys(m[..i] + m[i + 1..] + [(k, v)])
  {
    var moved := Put(m, k, v);
    PutNew(m, k, v);
    UniqueAppend(m, k, v);
    assert moved[i] == m[i];
    RemoveAt(moved, i);
    UniqueDrop(moved, i);
    assert moved[..i] + moved[i + 1..] == m[..i] + m[i + 1..] + [(k, v)];
    var r := m[..i] + m[i + 1..] + [(k, v)];
    assert Keys(r)[|r| - 1] == k;
  }
}
