/**
  A JavaScript object with string keys, as the screens use one for addon selections,
  request headers, stored values and user records: its own enumerable properties in
  insertion order (the order `for…in`, `Object.keys` and spread follow). Assigning to a
  key that is present keeps its position; assigning to a new key appends it; `delete`
  removes it.
*/
module JsObject {
  import opened Wrappers

  type Entries<V> = seq<(string, V)>

  /** No key occurs twice: every object built by the operations below has this shape. */
  predicate KeysUnique<V>(m: Entries<V>) {
    forall i, j :: 0 <= i < j < |m| ==> m[i].0 != m[j].0
  }

  /** `m[k]`, `None` for a missing key. */
  function Get<V>(m: Entries<V>, k: string): (r: Option<V>)
  {
    if m == [] then None
    else if m[0].0 == k then Some(m[0].1)
    else Get(m[1..], k)
  }

  predicate Has<V>(m: Entries<V>, k: string) {
    Get(m, k).Some?
  }

  /** Every key stored in the object is found. */
  lemma {:induction false} HasIndex<V>(m: Entries<V>, i: int)
    requires 0 <= i < |m|
    ensures Has(m, m[i].0)
  {
    if i > 0 && m[0].0 != m[i].0 {
      HasIndex(m[1..], i - 1);
    }
  }

  /** A key that no entry holds is not found. */
  lemma {:induction false} NotHasAbsent<V>(m: Entries<V>, k: string)
    requires forall i :: 0 <= i < |m| ==> m[i].0 != k
    ensures !Has(m, k)
  {
    if m != [] {
      NotHasAbsent(m[1..], k);
    }
  }

  /** `m[k] = v` */
  function Set<V>(m: Entries<V>, k: string, v: V): (r: Entries<V>)
    ensures Get(r, k) == Some(v)
    ensures forall k' :: k' != k ==> Get(r, k') == Get(m, k')
  {
    if m == [] then [(k, v)]
    else if m[0].0 == k then [(k, v)] + m[1..]
    else [m[0]] + Set(m[1..], k, v)
  }

  /** Assigning to a present key keeps the object's size; a new key is appended at the end. */
  lemma {:induction false} SetShape<V>(m: Entries<V>, k: string, v: V)
    ensures Has(m, k) ==> |Set(m, k, v)| == |m|
    ensures !Has(m, k) ==> Set(m, k, v) == m + [(k, v)]
  {
    if m != [] && m[0].0 != k {
      SetShape(m[1..], k, v);
    }
  }

  /** `delete m[k]` */
  function Delete<V>(m: Entries<V>, k: string): (r: Entries<V>)
    ensures Get(r, k) == None
    ensures forall k' :: k' != k ==> Get(r, k') == Get(m, k')
    ensures |r| <= |m|
  {
    if m == [] then []
    else if m[0].0 == k then Delete(m[1..], k)
    else [m[0]] + Delete(m[1..], k)
  }

  /** Deleting a key the object does not have changes nothing. */
  lemma {:induction false} DeleteAbsent<V>(m: Entries<V>, k: string)
    requires !Has(m, k)
    ensures Delete(m, k) == m
  {
    if m != [] {
      DeleteAbsent(m[1..], k);
    }
  }

  /** Assigning a new key and then deleting it restores the object. */
  lemma SetThenDeleteNew<V>(m: Entries<V>, k: string, v: V)
    requires !Has(m, k)
    ensures Delete(Set(m, k, v), k) == m
  {
    SetShape(m, k, v);
    DeleteAppended(m, k, v);
  }

  lemma {:induction false} DeleteAppended<V>(m: Entries<V>, k: string, v: V)
    requires !Has(m, k)
    ensures Delete(m + [(k, v)], k) == m
  {
    if m == [] {
      assert [(k, v)][1..] == [];
    } else {
      assert (m + [(k, v)])[1..] == m[1..] + [(k, v)];
      DeleteAppended(m[1..], k, v);
    }
  }

  /** Assignment and deletion keep every key unique. */
  lemma {:induction false} SetKeepsKeysUnique<V>(m: Entries<V>, k: string, v: V)
    requires KeysUnique(m)
    ensures KeysUnique(Set(m, k, v))
  {
    if m != [] && m[0].0 != k {
      SetKeepsKeysUnique(m[1..], k, v);
      var r := Set(m, k, v);
      NotHasAbsent(m[1..], m[0].0);
      forall j | 0 < j < |r| ensures r[0].0 != r[j].0 {
        HasIndex(Set(m[1..], k, v), j - 1);
      }
    }
  }

  lemma {:induction false} DeleteKeepsKeysUnique<V>(m: Entries<V>, k: string)
    requires KeysUnique(m)
    ensures KeysUnique(Delete(m, k))
  {
    if m != [] {
      DeleteKeepsKeysUnique(m[1..], k);
      if m[0].0 != k {
        var r := Delete(m, k);
        NotHasAbsent(m[1..], m[0].0);
        forall j | 0 < j < |r| ensures r[0].0 != r[j].0 {
          HasIndex(Delete(m[1..], k), j - 1);
        }
      }
    }
  }

  /** `{...a, ...b}`: the properties of `b` assigned over those of `a`, in order. */
  function Merge<V>(a: Entries<V>, b: Entries<V>): (r: Entries<V>)
    decreases |b|
  {
    if b == [] then a else Merge(Set(a, b[0].0, b[0].1), b[1..])
  }

  /** In a spread, the later object wins on a shared key and the earlier one keeps the rest. */
  lemma {:induction false} MergeGet<V>(a: Entries<V>, b: Entries<V>, k: string)
    requires KeysUnique(b)
    ensures Get(Merge(a, b), k) == if Has(b, k) then Get(b, k) else Get(a, k)
    decreases |b|
  {
    if b != [] {
      assert KeysUnique(b[1..]) by {
        forall i, j | 0 <= i < j < |b[1..]| ensures b[1..][i].0 != b[1..][j].0 {
          assert b[1..][i] == b[i + 1] && b[1..][j] == b[j + 1];
        }
      }
      MergeGet(Set(a, b[0].0, b[0].1), b[1..], k);
      if b[0].0 == k {
        NotHasAbsent(b[1..], k);
      }
    }
  }

  /** `const {k, ...rest} = m; return {...rest, k}`: the key `k` moved last (dropped if absent). */
  function MoveLast<V>(m: Entries<V>, k: string): (r: Entries<V>)
    ensures forall k' :: Get(r, k') == Get(m, k')
  {
    match Get(m, k)
    case Some(v) => Set(Delete(m, k), k, v)
    case None => Delete(m, k)
  }
}
