/**
 * Python's insertion-ordered `dict` as a list of key/value pairs: a new key
 * goes to the end, an existing key keeps its place and takes the new value.
 */
module OrderedDict {
  import opened Wrappers

  type Dict<K, V> = seq<(K, V)>

  function Lookup<K(==,!new), V>(d: Dict<K, V>, k: K): Option<V> {
    if d == [] then None else if d[0].0 == k then Some(d[0].1) else Lookup(d[1..], k)
  }

  /** `d[k] = v`: overwrites in place when `k` is present, else appends at the end. */
  function Put<K(==,!new), V>(d: Dict<K, V>, k: K, v: V): (r: Dict<K, V>)
    ensures Lookup(r, k) == Some(v)
    ensures forall k' :: k' != k ==> Lookup(r, k') == Lookup(d, k')
    ensures Lookup(d, k).None? ==> r == d + [(k, v)]
  {
    if d == [] then [(k, v)]
    else if d[0].0 == k then [(k, v)] + d[1..]
    else
      var rest := Put(d[1..], k, v);
      assert ([d[0]] + rest)[1..] == rest;
      [d[0]] + rest
  }

  lemma {:induction false} LookupAbsent<K(!new), V>(d: Dict<K, V>, k: K)
    requires forall i :: 0 <= i < |d| ==> d[i].0 != k
    ensures Lookup(d, k) == None
    decreases |d|
  {
    if d != [] {
      LookupAbsent(d[1..], k);
    }
  }

  /** Dropping the element just appended gives back the sequence. */
  lemma DropLast<T>(a: seq<T>, e: T)
    ensures (a + [e])[..|a|] == a
  {
  }

  /**
   * `for k, v in es: d[k] = v` over pairs that may each fail to be formed
   * (`None`): the whole fails if any pair does, else it is the dictionary built.
   */
  function PutEach<K(==,!new), V>(es: seq<Option<(K, V)>>): Option<Dict<K, V>>
    decreases |es|
  {
    if es == [] then Some([])
    else
      var last := es[|es| - 1];
      match PutEach(es[..|es| - 1])
      case None => None
      case Some(d) => if last.None? then None else Some(Put(d, last.value.0, last.value.1))
  }

  /** One more assignment: the loop step of `PutEach`. */
  lemma PutEachSnoc<K(!new), V>(es: seq<Option<(K, V)>>, e: Option<(K, V)>)
    ensures PutEach(es + [e]) == if PutEach(es).None? || e.None? then None
                                 else Some(Put(PutEach(es).value, e.value.0, e.value.1))
  {
    DropLast(es, e);
  }

  /** The dictionary is formed exactly when every pair is. */
  lemma {:induction false} PutEachFails<K(!new), V>(es: seq<Option<(K, V)>>)
    ensures PutEach(es).None? <==> exists i :: 0 <= i < |es| && es[i].None?
    decreases |es|
  {
    if es != [] {
      var n := |es|;
      var init := es[..n - 1];
      PutEachFails(init);
      if PutEach(es).None? && es[n - 1].Some? {
        var i :| 0 <= i < |init| && init[i].None?;
        assert es[i] == init[i];
      }
      if PutEach(es).Some? {
        forall i | 0 <= i < n
          ensures es[i].Some?
        {
          if i < n - 1 {
            assert es[i] == init[i];
          }
        }
      }
    }
  }

  /** Every assigned key is present. */
  lemma {:induction false} PutEachPresent<K(!new), V>(es: seq<Option<(K, V)>>, i: nat)
    requires i < |es| && PutEach(es).Some?
    ensures es[i].Some? && Lookup(PutEach(es).value, es[i].value.0).Some?
    decreases |es|
  {
    var n := |es|;
    var init := es[..n - 1];
    if i < n - 1 {
      assert init[i] == es[i];
      PutEachPresent(init, i);
    }
  }

  /** No later pair in `es` assigns the key of pair `i`. */
  predicate LastAssignment<K(==), V>(es: seq<Option<(K, V)>>, i: nat)
    requires i < |es| && es[i].Some?
  {
    forall j :: i < j < |es| ==> es[j].None? || es[j].value.0 != es[i].value.0
  }

  /** A key holds the value of its last assignment. */
  lemma {:induction false} PutEachLast<K(!new), V>(es: seq<Option<(K, V)>>, i: nat)
    requires i < |es| && PutEach(es).Some? && es[i].Some? && LastAssignment(es, i)
    ensures Lookup(PutEach(es).value, es[i].value.0) == Some(es[i].value.1)
    decreases |es|
  {
    var n := |es|;
    var init := es[..n - 1];
    if i < n - 1 {
      assert es[n - 1].None? || es[n - 1].value.0 != es[i].value.0;
      assert init[i] == es[i];
      assert LastAssignment(init, i);
      PutEachLast(init, i);
    }
  }

  /** Only assigned keys are present. */
  lemma {:induction false} PutEachOnly<K(!new), V>(es: seq<Option<(K, V)>>, k: K)
    requires PutEach(es).Some? && Lookup(PutEach(es).value, k).Some?
    ensures exists i :: 0 <= i < |es| && es[i].Some? && es[i].value.0 == k
    decreases |es|
  {
    var n := |es|;
    var init := es[..n - 1];
    if es[n - 1].value.0 != k {
      PutEachOnly(init, k);
      var i :| 0 <= i < |init| && init[i].Some? && init[i].value.0 == k;
      assert es[i] == init[i];
    }
  }

  predicate DistinctKeys<K(==), V>(d: Dict<K, V>) {
    forall i, j :: 0 <= i < j < |d| ==> d[i].0 != d[j].0
  }

  /** Assigning pairs with distinct keys lays them out in order. */
  lemma {:induction false} PutEachDistinct<K(!new), V>(es: seq<Option<(K, V)>>, d: Dict<K, V>)
    requires |es| == |d| && DistinctKeys(d)
    requires forall i :: 0 <= i < |es| ==> es[i] == Some(d[i])
    ensures PutEach(es) == Some(d)
    decreases |es|
  {
    if es != [] {
      var n := |es|;
      var init := d[..n - 1];
      assert DistinctKeys(init);
      PutEachDistinct(es[..n - 1], init);
      LookupAbsent(init, d[n - 1].0);
      assert init + [d[n - 1]] == d;
    }
  }
}
